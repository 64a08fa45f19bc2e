/** The text the debug client reads, as the C library sees it: a buffer whose
    text ends at the first NUL, leading white space as isspace classifies it,
    comments from the first '#', the "sleep %d" pattern of sscanf and the
    "quit" prefix of strncmp, and the action each line leads to. */
module CommandLine {
  import opened OpenVr

  const NUL: char := '\0'

  /** The size of the client's line buffer and of its response buffer */
  const LineBufferSize: nat := 256

  /** isspace in the C locale: space, \t, \n, \v, \f and \r */
  predicate IsSpace(c: char) {
    c == ' ' || ('\t' <= c <= '\r')
  }

  predicate IsDigit(c: char) {
    '0' <= c <= '9'
  }

  predicate AllSpace(s: seq<char>) {
    forall k :: 0 <= k < |s| ==> IsSpace(s[k])
  }

  predicate AllDigits(s: seq<char>) {
    forall k :: 0 <= k < |s| ==> IsDigit(s[k])
  }

  /** The C string a buffer holds: everything before its first NUL */
  function CString(s: seq<char>): (r: seq<char>)
    ensures r <= s && NUL !in r
    ensures |r| < |s| ==> s[|r|] == NUL
    ensures NUL in s ==> |r| < |s|
    decreases |s|
  {
    if s == [] || s[0] == NUL then [] else [s[0]] + CString(s[1..])
  }

  /** What is left after skipping leading white space */
  function TrimLeft(s: seq<char>): (r: seq<char>)
    ensures |r| <= |s|
    ensures r == [] || !IsSpace(r[0])
    decreases |s|
  {
    if s != [] && IsSpace(s[0]) then TrimLeft(s[1..]) else s
  }

  /** Skipping white space drops a prefix of white space and nothing else */
  lemma {:induction false} TrimLeftDropsOnlySpace(s: seq<char>)
    ensures var r := TrimLeft(s);
            r == s[|s| - |r|..] && AllSpace(s[..|s| - |r|])
    decreases |s|
  {
    if s != [] && IsSpace(s[0]) {
      TrimLeftDropsOnlySpace(s[1..]);
      var r := TrimLeft(s);
      assert s[1..][|s| - 1 - |r|..] == s[|s| - |r|..];
      assert forall k :: 1 <= k < |s| - |r| ==> s[k] == s[1..][..|s| - 1 - |r|][k - 1];
    }
  }

  /** The text before the first '#' */
  function StripComment(s: seq<char>): (r: seq<char>)
    ensures r <= s && '#' !in r
    ensures |r| < |s| ==> s[|r|] == '#'
    decreases |s|
  {
    if s == [] || s[0] == '#' then [] else [s[0]] + StripComment(s[1..])
  }

  /** The buffer after the client cuts its comment in place: the first '#'
      before the first NUL becomes a NUL, and nothing else changes.  The C
      string the result holds is the original one up to its first '#'. */
  function CutComment(buf: seq<char>): (r: seq<char>)
    ensures |r| == |buf|
    decreases |buf|
  {
    if buf == [] || buf[0] == NUL then buf
    else if buf[0] == '#' then [NUL] + buf[1..]
    else [buf[0]] + CutComment(buf[1..])
  }

  /** Cutting the comment in place leaves the C string without its comment */
  lemma {:induction false} CutCommentStripsComment(buf: seq<char>)
    ensures CString(CutComment(buf)) == StripComment(CString(buf))
    decreases |buf|
  {
    if buf != [] && buf[0] != NUL {
      if buf[0] == '#' {
        assert CutComment(buf)[0] == NUL;
      } else {
        var tail := buf[1..];
        CutCommentStripsComment(tail);
        assert CutComment(buf) == [buf[0]] + CutComment(tail);
        assert ([buf[0]] + CutComment(tail))[1..] == CutComment(tail);
        assert CString(buf) == [buf[0]] + CString(tail);
        assert ([buf[0]] + CString(tail))[1..] == CString(tail);
      }
    }
  }

  /** Cutting the comment in place changes at most one character: a '#'
      that becomes a NUL. */
  lemma {:induction false} CutCommentChangesOnlyHash(buf: seq<char>)
    ensures forall k :: 0 <= k < |buf| && CutComment(buf)[k] != buf[k] ==>
              buf[k] == '#' && CutComment(buf)[k] == NUL
    decreases |buf|
  {
    if buf != [] && buf[0] != NUL && buf[0] != '#' {
      var tail := buf[1..];
      CutCommentChangesOnlyHash(tail);
      var r := CutComment(buf);
      assert r == [buf[0]] + CutComment(tail);
      forall k | 1 <= k < |buf|
        ensures r[k] == CutComment(tail)[k - 1] && buf[k] == tail[k - 1]
      {
      }
    }
  }

  /** The C string of a buffer is everything before the first NUL */
  lemma CStringEndsAtFirstNul(s: seq<char>, k: nat)
    requires k < |s| && s[k] == NUL
    requires forall j :: 0 <= j < k ==> s[j] != NUL
    ensures CString(s) == s[..k]
  {
  }

  /** A C string stored with its terminator, whatever follows it */
  lemma {:induction false} CStringOfTerminated(text: seq<char>, rest: seq<char>)
    ensures CString(text + [NUL] + rest) == CString(text)
    decreases |text|
  {
    if text != [] && text[0] != NUL {
      assert (text + [NUL] + rest)[1..] == text[1..] + [NUL] + rest;
      CStringOfTerminated(text[1..], rest);
    }
  }

  /** Cutting the comment of a text keeps everything before the first '#' */
  lemma StripCommentEndsAtFirstHash(s: seq<char>, k: nat)
    requires k <= |s|
    requires k < |s| ==> s[k] == '#'
    requires forall j :: 0 <= j < k ==> s[j] != '#'
    ensures StripComment(s) == s[..k]
  {
  }

  /** CutComment turns the first '#' into a NUL when no NUL comes before it */
  lemma {:induction false} CutCommentAtFirstHash(buf: seq<char>, k: nat)
    requires k < |buf| && buf[k] == '#'
    requires forall j :: 0 <= j < k ==> buf[j] != '#' && buf[j] != NUL
    ensures CutComment(buf) == buf[k := NUL]
    decreases k
  {
    if k > 0 {
      CutCommentAtFirstHash(buf[1..], k - 1);
      assert buf[k := NUL] == [buf[0]] + buf[1..][k - 1 := NUL];
    }
  }

  /** CutComment leaves a buffer alone when its C string has no '#' */
  lemma {:induction false} CutCommentAtFirstNul(buf: seq<char>, k: nat)
    requires k < |buf| && buf[k] == NUL
    requires forall j :: 0 <= j < k ==> buf[j] != '#' && buf[j] != NUL
    ensures CutComment(buf) == buf
    decreases k
  {
    if k > 0 {
      CutCommentAtFirstNul(buf[1..], k - 1);
      assert buf == [buf[0]] + buf[1..];
    }
  }

  // ---- fgets(szbuf, 256, stdin) ----

  /** What fgets stores from the input when it has room for `room`
      characters: up to and including the first newline, but no more than
      room characters. */
  function LineUpTo(input: seq<char>, room: nat): (r: seq<char>)
    ensures r <= input && |r| <= room
    ensures input != [] && room > 0 ==> r != []
    ensures forall k :: 0 <= k < |r| - 1 ==> r[k] != '\n'
    ensures |r| < |input| && |r| < room ==> r != [] && r[|r| - 1] == '\n'
    decreases room
  {
    if input == [] || room == 0 then []
    else if input[0] == '\n' then ['\n']
    else [input[0]] + LineUpTo(input[1..], room - 1)
  }

  /** One fgets into the 256-character line buffer */
  function NextLine(input: seq<char>): (r: seq<char>)
    ensures r <= input && |r| < LineBufferSize
    ensures input != [] ==> r != []
  {
    LineUpTo(input, LineBufferSize - 1)
  }

  /** The successive lines fgets returns until it reports end of input */
  function Lines(input: seq<char>): (r: seq<seq<char>>)
    ensures forall i :: 0 <= i < |r| ==> r[i] != [] && |r[i]| < LineBufferSize
    decreases |input|
  {
    if input == [] then [] else [NextLine(input)] + Lines(input[|NextLine(input)|..])
  }

  function Concat(lines: seq<seq<char>>): seq<char>
    decreases |lines|
  {
    if lines == [] then [] else lines[0] + Concat(lines[1..])
  }

  /** Reading line by line loses and adds nothing: the lines fgets returns,
      put back together, are the input. */
  lemma {:induction false} LinesRoundTrip(input: seq<char>)
    ensures Concat(Lines(input)) == input
    decreases |input|
  {
    if input != [] {
      var line := NextLine(input);
      var rest := input[|line|..];
      LinesUnfold(input, line, rest);
      LinesRoundTrip(rest);
    }
  }

  /** The first line fgets reads, and the input after it */
  lemma LinesUnfold(input: seq<char>, line: seq<char>, rest: seq<char>)
    requires input != [] && line == NextLine(input) && rest == input[|line|..]
    ensures Concat(Lines(input)) == line + Concat(Lines(rest))
    ensures line + rest == input
  {
    var lines := Lines(input);
    assert lines[1..] == Lines(rest);
  }

  // ---- sscanf(cmd, "sleep %d", &ms) ----

  /** The longest prefix made of decimal digits */
  function DigitRun(s: seq<char>): (r: seq<char>)
    ensures r <= s && AllDigits(r)
    ensures |r| < |s| ==> !IsDigit(s[|r|])
    decreases |s|
  {
    if s != [] && IsDigit(s[0]) then [s[0]] + DigitRun(s[1..]) else []
  }

  /** The value of a string of decimal digits */
  function DigitsValue(ds: seq<char>): nat
    requires AllDigits(ds)
    decreases |ds|
  {
    if ds == [] then 0
    else 10 * DigitsValue(ds[..|ds| - 1]) + (ds[|ds| - 1] as int - '0' as int)
  }

  /** What a "%d" conversion makes of its input once white space is skipped:
      an optional sign and at least one digit; None when the conversion fails. */
  function ScanNumber(t: seq<char>): Option<int>
  {
    var signed := t != [] && (t[0] == '-' || t[0] == '+');
    var ds := DigitRun(if signed then t[1..] else t);
    var magnitude: int := if ds == [] then 0 else DigitsValue(ds);
    if ds == [] then None
    else if signed && t[0] == '-' then Some(-magnitude)
    else Some(magnitude)
  }

  /** What a "%d" conversion makes of its input: leading white space is skipped */
  function ScanInt(s: seq<char>): Option<int>
  {
    ScanNumber(TrimLeft(s))
  }

  /** Some(ms) exactly when sscanf(cmd, "sleep %d", &ms) returns 1: the
      literal "sleep", then (the space directive) any white space, then an
      integer. */
  function ScanSleep(cmd: seq<char>): (r: Option<int>)
    ensures r.Some? ==> |cmd| >= 5 && cmd[..5] == "sleep"
  {
    if |cmd| >= 5 && cmd[..5] == "sleep" then ScanInt(cmd[5..]) else None
  }

  /** strncmp(cmd, "quit", 4) == 0 */
  predicate StartsWithQuit(cmd: seq<char>) {
    |cmd| >= 4 && cmd[..4] == "quit"
  }

  // ---- Decimal numerals, to state what ScanSleep accepts ----

  function DigitChar(d: nat): char
    requires d < 10
  {
    ('0' as int + d) as char
  }

  function Decimal(n: nat): (r: seq<char>)
    ensures r != [] && AllDigits(r)
    decreases n
  {
    if n < 10 then [DigitChar(n)] else Decimal(n / 10) + [DigitChar(n % 10)]
  }

  function SignedDecimal(n: int): seq<char>
  {
    if n < 0 then ['-'] + Decimal(-n) else Decimal(n)
  }

  lemma {:induction false} DecimalRoundTrip(n: nat)
    ensures DigitsValue(Decimal(n)) == n
    decreases n
  {
    if n >= 10 {
      var ds := Decimal(n);
      assert ds[..|ds| - 1] == Decimal(n / 10);
      DecimalRoundTrip(n / 10);
    }
  }

  lemma {:induction false} DigitRunStopsAtNonDigit(ds: seq<char>, tail: seq<char>)
    requires AllDigits(ds)
    requires tail == [] || !IsDigit(tail[0])
    ensures DigitRun(ds + tail) == ds
    decreases |ds|
  {
    if ds != [] {
      assert (ds + tail)[1..] == ds[1..] + tail;
      DigitRunStopsAtNonDigit(ds[1..], tail);
    }
  }

  lemma {:induction false} TrimLeftSkipsSpaces(gap: seq<char>, rest: seq<char>)
    requires AllSpace(gap)
    requires rest == [] || !IsSpace(rest[0])
    ensures TrimLeft(gap + rest) == rest
    decreases |gap|
  {
    if gap != [] {
      assert (gap + rest)[1..] == gap[1..] + rest;
      TrimLeftSkipsSpaces(gap[1..], rest);
    }
  }

  /** Digits followed by anything that does not continue them convert to
      their value. */
  lemma DigitsThenTail(ds: seq<char>, tail: seq<char>)
    requires ds != [] && AllDigits(ds)
    requires tail == [] || !IsDigit(tail[0])
    ensures ScanNumber(ds + tail) == Some(DigitsValue(ds))
  {
    var u := ds + tail;
    assert u[0] == ds[0];
    DigitRunStopsAtNonDigit(ds, tail);
  }

  /** ... and, after a minus sign, to their value negated */
  lemma MinusDigitsThenTail(ds: seq<char>, tail: seq<char>)
    requires ds != [] && AllDigits(ds)
    requires tail == [] || !IsDigit(tail[0])
    ensures ScanNumber(['-'] + ds + tail) == Some(-(DigitsValue(ds) as int))
  {
    var v := ['-'] + ds + tail;
    assert v[1..] == ds + tail;
    DigitRunStopsAtNonDigit(ds, tail);
  }

  /** A signed decimal numeral followed by anything that does not continue it
      converts to exactly its value. */
  lemma ScanNumberOfNumeral(n: int, tail: seq<char>)
    requires tail == [] || !IsDigit(tail[0])
    ensures ScanNumber(SignedDecimal(n) + tail) == Some(n)
  {
    if n < 0 {
      DecimalRoundTrip(-n);
      MinusDigitsThenTail(Decimal(-n), tail);
      assert SignedDecimal(n) + tail == ['-'] + Decimal(-n) + tail;
    } else {
      DecimalRoundTrip(n);
      DigitsThenTail(Decimal(n), tail);
    }
  }

  /** White space before the number is skipped */
  lemma ScanIntSkipsSpace(gap: seq<char>, number: seq<char>)
    requires AllSpace(gap)
    requires number == [] || !IsSpace(number[0])
    ensures ScanInt(gap + number) == ScanNumber(number)
  {
    TrimLeftSkipsSpaces(gap, number);
  }

  /** "sleep", any white space, a decimal integer and anything that does not
      continue the number is scanned as a sleep of exactly that integer. */
  lemma SleepRoundTrip(gap: seq<char>, n: int, tail: seq<char>)
    requires AllSpace(gap)
    requires tail == [] || !IsDigit(tail[0])
    ensures ScanSleep("sleep" + gap + SignedDecimal(n) + tail) == Some(n)
  {
    var number := SignedDecimal(n) + tail;
    var cmd := "sleep" + gap + SignedDecimal(n) + tail;
    assert cmd == "sleep" + (gap + number);
    assert cmd[..5] == "sleep" && cmd[5..] == gap + number;
    assert number[0] == SignedDecimal(n)[0];
    ScanIntSkipsSpace(gap, number);
    ScanNumberOfNumeral(n, tail);
  }

  // ---- Classifying a line ----

  /** What one line makes the client do */
  datatype Action =
    | Ignore                                                  // empty or comment-only: nothing sent or printed
    | Sleep(ms: int)                                          // sleep, then print "ok"
    | Quit                                                    // print "bye" and leave the loop
    | Send(target: TrackedDeviceIndex, request: seq<char>)    // send_request to that device
    | UnrecognizedTarget                                      // print "unrecognized target (choose l or r)"

  /** The device a line's first character selects */
  function TargetFor(c: char, left: TrackedDeviceIndex, right: TrackedDeviceIndex): TrackedDeviceIndex
  {
    if c == 'l' then left else if c == 'r' then right else InvalidTrackedDeviceIndex
  }

  /** The decision chain applied to the command text (white space skipped,
      comment cut): blank, then sleep, then quit, then a target. */
  function Classify(cmd: seq<char>, left: TrackedDeviceIndex, right: TrackedDeviceIndex): Action
  {
    if cmd == [] || cmd[0] == '#' then Ignore
    else if ScanSleep(cmd).Some? then Sleep(ScanSleep(cmd).value)
    else if StartsWithQuit(cmd) then Quit
    else
      var target := TargetFor(cmd[0], left, right);
      if target != InvalidTrackedDeviceIndex then Send(target, cmd[1..]) else UnrecognizedTarget
  }

  /** Each action is taken exactly when its test is the first to succeed:
      blank text is ignored, a successful "sleep %d" sleeps for the number
      read, a "quit" prefix quits, and otherwise a first character 'l' or 'r'
      sends the rest of the text to that hand's device. */
  lemma ClassifyDecides(cmd: seq<char>, left: TrackedDeviceIndex, right: TrackedDeviceIndex)
    ensures var a := Classify(cmd, left, right);
            && (a == Ignore <==> cmd == [] || cmd[0] == '#')
            && (a.Sleep? <==> cmd != [] && cmd[0] != '#' && ScanSleep(cmd).Some?)
            && (a.Sleep? ==> a.ms == ScanSleep(cmd).value)
            && (a == Quit <==> StartsWithQuit(cmd))
            && (a.Send? ==> (cmd[0] == 'l' || cmd[0] == 'r') && a.request == cmd[1..])
            && (a.Send? ==> a.target == (if cmd[0] == 'l' then left else right) && a.target != InvalidTrackedDeviceIndex)
            && (left != InvalidTrackedDeviceIndex && right != InvalidTrackedDeviceIndex ==>
                  (a.Send? <==> cmd != [] && (cmd[0] == 'l' || cmd[0] == 'r')))
  {
    assert StartsWithQuit(cmd) ==> cmd[0] == cmd[..4][0] == 'q';
  }

  /** What the client does with the buffer fgets filled */
  function LineAction(buf: seq<char>, left: TrackedDeviceIndex, right: TrackedDeviceIndex): Action
  {
    Classify(StripComment(TrimLeft(CString(buf))), left, right)
  }

  /** A line is ignored exactly when, after its leading white space, it is
      empty or starts a comment. */
  lemma LineIgnoredIffBlank(buf: seq<char>, left: TrackedDeviceIndex, right: TrackedDeviceIndex)
    ensures var text := TrimLeft(CString(buf));
            LineAction(buf, left, right) == Ignore <==> text == [] || text[0] == '#'
  {
    var text := TrimLeft(CString(buf));
    var cmd := StripComment(text);
    assert cmd != [] ==> cmd[0] == text[0];
    ClassifyDecides(cmd, left, right);
  }

  /** The longest prefix of actions that ends at the first quit, if any */
  function UpToQuit(actions: seq<Action>): (r: seq<Action>)
    ensures r <= actions
    ensures forall i :: 0 <= i < |r| - 1 ==> r[i] != Quit
    ensures |r| < |actions| ==> r != [] && r[|r| - 1] == Quit
    decreases |actions|
  {
    if actions == [] then []
    else if actions[0] == Quit then [Quit]
    else [actions[0]] + UpToQuit(actions[1..])
  }

  /** The action each line would lead to on its own */
  function LineActions(lines: seq<seq<char>>, left: TrackedDeviceIndex, right: TrackedDeviceIndex): (r: seq<Action>)
    ensures |r| == |lines|
    ensures forall i :: 0 <= i < |lines| ==> r[i] == LineAction(lines[i], left, right)
  {
    seq(|lines|, i requires 0 <= i < |lines| => LineAction(lines[i], left, right))
  }

  /** The actions of the client's loop for the lines read, up to and
      including the first quit. */
  function ClientActions(lines: seq<seq<char>>, left: TrackedDeviceIndex, right: TrackedDeviceIndex): (r: seq<Action>)
    ensures |r| <= |lines|
    ensures forall i :: 0 <= i < |r| ==> r[i] == LineAction(lines[i], left, right)
    ensures forall i :: 0 <= i < |r| - 1 ==> r[i] != Quit
    ensures |r| < |lines| ==> r != [] && r[|r| - 1] == Quit
  {
    UpToQuit(LineActions(lines, left, right))
  }

  /** UpToQuit cuts right after the first quit, and keeps everything when
      there is none. */
  lemma {:induction false} UpToQuitStopsAtFirst(actions: seq<Action>, n: nat)
    requires n <= |actions|
    requires forall i :: 0 <= i < n ==> actions[i] != Quit
    requires n < |actions| ==> actions[n] == Quit
    ensures UpToQuit(actions) == if n < |actions| then actions[..n + 1] else actions
    decreases n
  {
    if n > 0 {
      assert actions[0] != Quit;
      UpToQuitStopsAtFirst(actions[1..], n - 1);
      assert UpToQuit(actions) == [actions[0]] + UpToQuit(actions[1..]);
      if n < |actions| {
        assert actions[..n + 1] == [actions[0]] + actions[1..][..n];
      } else {
        assert actions == [actions[0]] + actions[1..];
      }
    }
  }

  // ---- Facts about cutting comments ----

  lemma {:induction false} StripCommentIdempotent(s: seq<char>)
    ensures StripComment(StripComment(s)) == StripComment(s)
    decreases |s|
  {
    if s != [] && s[0] != '#' {
      assert ([s[0]] + StripComment(s[1..]))[1..] == StripComment(s[1..]);
      StripCommentIdempotent(s[1..]);
    }
  }

  /** Skipping white space and cutting the comment commute, since white space
      is never '#'. */
  lemma {:induction false} TrimLeftStripCommentCommute(s: seq<char>)
    ensures TrimLeft(StripComment(s)) == StripComment(TrimLeft(s))
    decreases |s|
  {
    if s != [] && s[0] != '#' && IsSpace(s[0]) {
      calc {
        TrimLeft(StripComment(s));
        { assert StripComment(s) == [s[0]] + StripComment(s[1..]);
          assert ([s[0]] + StripComment(s[1..]))[1..] == StripComment(s[1..]); }
        TrimLeft(StripComment(s[1..]));
        { TrimLeftStripCommentCommute(s[1..]); }
        StripComment(TrimLeft(s[1..]));
      }
    }
  }

  /** Cutting the comment a second time changes nothing, and the line still
      means what it meant. */
  lemma {:induction false} CutCommentIdempotent(buf: seq<char>, left: TrackedDeviceIndex, right: TrackedDeviceIndex)
    ensures CutComment(CutComment(buf)) == CutComment(buf)
    ensures LineAction(CutComment(buf), left, right) == LineAction(buf, left, right)
    decreases |buf|
  {
    if buf != [] && buf[0] != NUL && buf[0] != '#' {
      CutCommentIdempotent(buf[1..], left, right);
      assert ([buf[0]] + CutComment(buf[1..]))[1..] == CutComment(buf[1..]);
    }
    CutCommentStripsComment(buf);
    var c := CString(buf);
    TrimLeftStripCommentCommute(c);
    StripCommentIdempotent(TrimLeft(c));
  }

  // ---- The loop body as written, at end of input ----

  /** The buffer after fgets stores a line of fewer than |buf| characters */
  function Fill(buf: seq<char>, line: seq<char>): seq<char>
    requires |line| < |buf|
  {
    line + [NUL] + buf[|line| + 1..]
  }

  /** One pass of the loop body as the source writes it: fgets's result is not
      looked at, so at end of input (read == None) the buffer keeps what it
      held; the comment is cut in place and the line classified either way. */
  function IterationAsWritten(buf: seq<char>, read: Option<seq<char>>,
                              left: TrackedDeviceIndex, right: TrackedDeviceIndex): (seq<char>, Action)
    requires read.Some? ==> |read.value| < |buf|
  {
    var filled := if read.Some? then Fill(buf, read.value) else buf;
    (CutComment(filled), LineAction(filled, left, right))
  }

  /** Once input is exhausted, the loop as written repeats its last command
      for ever: the buffer it leaves is a fixed point of the next pass, and
      the action it repeats is not quit, so the loop never ends. */
  lemma EndOfInputRepeatsLastCommand(buf: seq<char>, left: TrackedDeviceIndex, right: TrackedDeviceIndex)
    requires LineAction(buf, left, right) != Quit
    ensures var (next, action) := IterationAsWritten(buf, None, left, right);
            action == LineAction(buf, left, right) && action != Quit &&
            IterationAsWritten(next, None, left, right) == (next, action)
  {
    CutCommentIdempotent(buf, left, right);
  }
}
