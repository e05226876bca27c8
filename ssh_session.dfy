/**
 * execute_olt_command: one command over an interactive SSH shell on the OLT.
 *
 * The transport is an injected transcript: the outcome of every call the function makes
 * on the client and the channel, in order, and one entry per poll of the read loop made
 * before the 15-second deadline (so the deadline is the end of that sequence).
 * Received bytes are already decoded text.
 */
module SshSession {
  import opened Wrappers
  import opened PyText

  // ---------------------------------------------------------------------------
  // The injected transport
  // ---------------------------------------------------------------------------

  /** The three exception classes the function distinguishes. */
  datatype Fault =
    | AuthFailure               // paramiko.AuthenticationException
    | SshFailure(detail: string)   // paramiko.SSHException, with its text
    | OtherFailure(detail: string) // any other exception, with its text

  /** A call that returns nothing: it succeeds or raises. */
  datatype Step = Ok | Raises(fault: Fault)

  /** A call that returns received text, or raises. */
  datatype Io = Got(text: string) | IoRaises(fault: Fault)

  /** One iteration of the read loop: nothing ready, a chunk received, or a raise. */
  datatype Poll = NotReady | Ready(chunk: string) | PollRaises(fault: Fault)

  /**
   * connect, invoke_shell, the first recv, the "scroll" send-and-recv, the command send,
   * and the polls of the read loop.
   */
  datatype Transcript = Transcript(connect: Step, shell: Step, banner: Io, paging: Io, send: Step, polls: seq<Poll>)

  /** OLT_HOST, OLT_SSH_USER and OLT_SSH_PASS; "" stands for unset or empty. */
  datatype Credentials = Credentials(host: string, user: string, password: string)

  const MissingCredentials: string := "Erro: Credenciais SSH da OLT não configuradas."
  const AuthMessage: string := "Erro: Falha na autenticação SSH."

  /** What the function returns, and which of client and channel it opened and closed. */
  datatype CommandResult = CommandResult(
    output: Option<string>, error: Option<string>,
    clientOpened: bool, clientClosed: bool, channelOpened: bool, channelClosed: bool)

  predicate CredentialsSet(c: Credentials) {
    c.host != "" && c.user != "" && c.password != ""
  }

  /** The error text of each exception class. */
  function ErrorMessage(f: Fault): string {
    match f
    case AuthFailure => AuthMessage
    case SshFailure(d) => "Erro: Problema na conexão SSH (" + d + ")."
    case OtherFailure(d) => "Erro inesperado: " + d
  }

  /** Messages of different exception classes never coincide. */
  lemma ErrorMessageDistinguishes(f: Fault, g: Fault)
    requires f.AuthFailure? != g.AuthFailure? || f.SshFailure? != g.SshFailure?
    ensures ErrorMessage(f) != ErrorMessage(g)
  {
    var m, n := ErrorMessage(f), ErrorMessage(g);
    if f.OtherFailure? || g.OtherFailure? {
      assert m[4] != n[4];
    } else {
      assert m[6] != n[6];
    }
  }

  // ---------------------------------------------------------------------------
  // The read loop
  // ---------------------------------------------------------------------------

  /** A chunk that, once stripped, ends with a CLI prompt character. */
  predicate IsPromptChunk(chunk: string) {
    EndsWith(Strip(chunk), ">") || EndsWith(Strip(chunk), "#")
  }

  datatype ReadOutcome = ReadOutcome(received: string, promptFound: bool, fault: Option<Fault>)

  /** The loop's outcome when `prefix` was received before it reached these polls. */
  function Prefixed(prefix: string, o: ReadOutcome): ReadOutcome {
    o.(received := prefix + o.received)
  }

  /** The read loop over the polls made before the deadline. */
  function ReadLoop(polls: seq<Poll>, expectPrompt: bool): ReadOutcome
    decreases |polls|
  {
    if polls == [] then ReadOutcome("", false, None)
    else
      match polls[0]
      case NotReady => ReadLoop(polls[1..], expectPrompt)
      case PollRaises(f) => ReadOutcome("", false, Some(f))
      case Ready(c) =>
        if expectPrompt && IsPromptChunk(c) then ReadOutcome(c, true, None)
        else Prefixed(c, ReadLoop(polls[1..], expectPrompt))
  }

  /** Every chunk of the polls, in arrival order. */
  function Chunks(polls: seq<Poll>): string
    decreases |polls|
  {
    if polls == [] then ""
    else if polls[0].Ready? then polls[0].chunk + Chunks(polls[1..])
    else Chunks(polls[1..])
  }

  /** The `while time.time() < end_time` loop. */
  method ReadUntilPrompt(polls: seq<Poll>, expectPrompt: bool)
    returns (received: string, promptFound: bool, fault: Option<Fault>)
    ensures ReadOutcome(received, promptFound, fault) == ReadLoop(polls, expectPrompt)
  {
    received, promptFound, fault := "", false, None;
    var i := 0;
    while i < |polls|
      invariant 0 <= i <= |polls|
      invariant ReadLoop(polls, expectPrompt) == Prefixed(received, ReadLoop(polls[i..], expectPrompt))
    {
      match polls[i] {
        case NotReady =>
        case PollRaises(f) =>
          fault := Some(f);
          return;
        case Ready(c) =>
          received := received + c;
          if expectPrompt && IsPromptChunk(c) {
            promptFound := true;
            return;
          }
      }
      i := i + 1;
    }
  }

  /** The loop stops at the first prompt chunk: what it received is every chunk up to it. */
  lemma {:induction false} ReadStopsAtFirstPrompt(polls: seq<Poll>, k: int)
    requires 0 <= k < |polls| && polls[k].Ready? && IsPromptChunk(polls[k].chunk)
    requires forall j :: 0 <= j < k ==> !polls[j].PollRaises? && !(polls[j].Ready? && IsPromptChunk(polls[j].chunk))
    ensures ReadLoop(polls, true) == ReadOutcome(Chunks(polls[..k + 1]), true, None)
    decreases k
  {
    if k > 0 {
      ReadStopsAtFirstPrompt(polls[1..], k - 1);
      assert polls[1..][..k] == polls[..k + 1][1..];
    }
  }

  /** With no raise, reaching the deadline is not an error, prompt or no prompt. */
  lemma {:induction false} DeadlineIsNotAnError(polls: seq<Poll>, expectPrompt: bool)
    requires forall j :: 0 <= j < |polls| ==> !polls[j].PollRaises?
    ensures ReadLoop(polls, expectPrompt).fault == None
    ensures !expectPrompt ==> ReadLoop(polls, expectPrompt) == ReadOutcome(Chunks(polls), false, None)
    decreases |polls|
  {
    if polls != [] {
      DeadlineIsNotAnError(polls[1..], expectPrompt);
    }
  }

  /** Whatever stops the loop, the received text is the chunks in arrival order, cut short. */
  lemma {:induction false} ReceivedIsPrefixOfChunks(polls: seq<Poll>, expectPrompt: bool)
    ensures StartsWith(Chunks(polls), ReadLoop(polls, expectPrompt).received)
    decreases |polls|
  {
    if polls != [] {
      ReceivedIsPrefixOfChunks(polls[1..], expectPrompt);
      if polls[0].Ready? {
        var c := polls[0].chunk;
        var rest := ReadLoop(polls[1..], expectPrompt).received;
        assert (c + rest) == (c + Chunks(polls[1..]))[..|c + rest|];
      }
    }
  }

  // ---------------------------------------------------------------------------
  // The try block
  // ---------------------------------------------------------------------------

  /** The try block's outcome: the raw output gathered, the exception, whether the shell opened. */
  datatype Shell = Shell(raw: string, fault: Option<Fault>, channelOpened: bool)

  function RunShell(t: Transcript, expectPrompt: bool): Shell {
    if t.connect.Raises? then Shell("", Some(t.connect.fault), false)
    else if t.shell.Raises? then Shell("", Some(t.shell.fault), false)
    else if t.banner.IoRaises? then Shell("", Some(t.banner.fault), true)
    else if t.paging.IoRaises? then Shell(t.banner.text, Some(t.paging.fault), true)
    else if t.send.Raises? then Shell(t.banner.text + t.paging.text, Some(t.send.fault), true)
    else
      var r := ReadLoop(t.polls, expectPrompt);
      Shell(t.banner.text + t.paging.text + r.received, r.fault, true)
  }

  method RunShellSteps(t: Transcript, expectPrompt: bool)
    returns (raw: string, fault: Option<Fault>, channelOpened: bool)
    ensures Shell(raw, fault, channelOpened) == RunShell(t, expectPrompt)
  {
    raw, fault, channelOpened := "", None, false;
    if t.connect.Raises? {
      fault := Some(t.connect.fault);
      return;
    }
    if t.shell.Raises? {
      fault := Some(t.shell.fault);
      return;
    }
    channelOpened := true;
    if t.banner.IoRaises? {
      fault := Some(t.banner.fault);
      return;
    }
    raw := raw + t.banner.text;
    if t.paging.IoRaises? {
      fault := Some(t.paging.fault);
      return;
    }
    raw := raw + t.paging.text;
    if t.send.Raises? {
      fault := Some(t.send.fault);
      return;
    }
    var received, promptFound, loopFault := ReadUntilPrompt(t.polls, expectPrompt);
    raw := raw + received;
    fault := loopFault;
  }

  // ---------------------------------------------------------------------------
  // Cleaning
  // ---------------------------------------------------------------------------

  /** A line kept by the cleaning pass: not the echoed command, not ending in a prompt. */
  predicate KeepLine(line: string, command: string) {
    var l := Strip(line);
    l != command && !EndsWith(l, ">") && !EndsWith(l, "#")
  }

  function KeptLines(lines: seq<string>, command: string): seq<string>
    decreases |lines|
  {
    if lines == [] then []
    else
      var last := lines[|lines| - 1];
      KeptLines(lines[..|lines| - 1], command) + (if KeepLine(last, command) then [last] else [])
  }

  function CleanOutput(raw: string, command: string): string {
    Strip(Join("\n", KeptLines(Splitlines(raw), command)))
  }

  /** The cleaning pass: the kept lines, joined by "\n", stripped as a whole. */
  method CleanLines(output: string, command: string) returns (cleaned: string)
    ensures cleaned == CleanOutput(output, command)
  {
    var lines := Splitlines(output);
    var cleanedLines: seq<string> := [];
    for i := 0 to |lines|
      invariant cleanedLines == KeptLines(lines[..i], command)
    {
      assert lines[..i + 1][..i] == lines[..i];
      var line := lines[i];
      var lStrip := Strip(line);
      if lStrip != command && !EndsWith(lStrip, ">") && !EndsWith(lStrip, "#") {
        cleanedLines := cleanedLines + [line];
      }
    }
    assert lines[..|lines|] == lines;
    cleaned := Strip(Join("\n", cleanedLines));
  }

  /** A line survives cleaning iff it is one of the raw lines and passes the test. */
  lemma {:induction false} KeptLinesExact(lines: seq<string>, command: string, x: string)
    ensures x in KeptLines(lines, command) <==> x in lines && KeepLine(x, command)
    decreases |lines|
  {
    if lines != [] {
      var init := lines[..|lines| - 1];
      KeptLinesExact(init, command, x);
      assert lines == init + [lines[|lines| - 1]];
    }
  }

  /** Cleaning the kept lines again changes nothing. */
  lemma {:induction false} KeptLinesIdempotent(lines: seq<string>, command: string)
    ensures KeptLines(KeptLines(lines, command), command) == KeptLines(lines, command)
    decreases |lines|
  {
    if lines != [] {
      var init := lines[..|lines| - 1];
      var last := lines[|lines| - 1];
      var k := KeptLines(init, command);
      KeptLinesIdempotent(init, command);
      var kl := KeptLines(lines, command);
      if KeepLine(last, command) {
        assert kl == k + [last];
        assert kl[..|kl| - 1] == k && kl[|kl| - 1] == last;
        assert KeptLines(kl, command) == KeptLines(k, command) + [last];
      } else {
        assert kl == k;
      }
    }
  }

  /** Filtering never adds lines, and keeps them all when every line passes the filter. */
  lemma {:induction false} KeptLinesLength(lines: seq<string>, command: string)
    ensures |KeptLines(lines, command)| <= |lines|
    ensures (forall j :: 0 <= j < |lines| ==> KeepLine(lines[j], command)) ==> KeptLines(lines, command) == lines
    decreases |lines|
  {
    if lines != [] {
      var init := lines[..|lines| - 1];
      KeptLinesLength(init, command);
      assert lines == init + [lines[|lines| - 1]];
    }
  }

  // ---------------------------------------------------------------------------
  // execute_olt_command
  // ---------------------------------------------------------------------------

  function Execute(creds: Credentials, command: string, expectPrompt: bool, t: Transcript): CommandResult {
    if !CredentialsSet(creds) then CommandResult(None, Some(MissingCredentials), false, false, false, false)
    else
      var s := RunShell(t, expectPrompt);
      CommandResult(Some(CleanOutput(s.raw, command)),
                    if s.fault.Some? then Some(ErrorMessage(s.fault.value)) else None,
                    true, true, s.channelOpened, s.channelOpened)
  }

  method ExecuteOltCommand(creds: Credentials, command: string, expectPrompt: bool, t: Transcript)
    returns (r: CommandResult)
    ensures r == Execute(creds, command, expectPrompt, t)
  {
    if !CredentialsSet(creds) {
      return CommandResult(None, Some(MissingCredentials), false, false, false, false);
    }
    // ssh = paramiko.SSHClient() precedes every call that can raise
    var clientOpened := true;
    var raw, fault, channelOpened := RunShellSteps(t, expectPrompt);
    var error: Option<string> := None;
    if fault.Some? {
      error := Some(ErrorMessage(fault.value));
    }
    // finally: close whichever of channel and client exists
    var channelClosed, clientClosed := false, false;
    if channelOpened {
      channelClosed := true;
    }
    if clientOpened {
      clientClosed := true;
    }
    var cleaned := CleanLines(raw, command);
    r := CommandResult(Some(cleaned), error, clientOpened, clientClosed, channelOpened, channelClosed);
  }

  /** Missing credentials: a fixed error and no output, before anything is opened; and only then. */
  lemma CredentialGuard(creds: Credentials, command: string, expectPrompt: bool, t: Transcript)
    ensures var r := Execute(creds, command, expectPrompt, t);
            (r.output.None? <==> !CredentialsSet(creds))
            && (!CredentialsSet(creds) ==> r.error == Some(MissingCredentials) && !r.clientOpened && !r.channelOpened)
  {
  }

  /** Channel and client are closed on every path that opened them, and only those. */
  lemma ClosedWhereOpened(creds: Credentials, command: string, expectPrompt: bool, t: Transcript)
    ensures var r := Execute(creds, command, expectPrompt, t);
            r.channelClosed == r.channelOpened && r.clientClosed == r.clientOpened
            && (r.channelOpened ==> r.clientOpened)
            && (CredentialsSet(creds) && t.connect.Ok? && t.shell.Ok? ==> r.channelOpened)
  {
  }

  /** Raised exceptions map to their message; partial output is still cleaned and returned. */
  lemma FaultsReported(creds: Credentials, command: string, expectPrompt: bool, t: Transcript)
    requires CredentialsSet(creds)
    ensures var r := Execute(creds, command, expectPrompt, t);
            (t.connect.Raises? ==> r.error == Some(ErrorMessage(t.connect.fault)) && r.output == Some(CleanOutput("", command)))
            && (t.connect.Ok? && t.shell.Ok? && t.banner.Got? && t.paging.Got? && t.send.Raises? ==>
                  r.error == Some(ErrorMessage(t.send.fault))
                  && r.output == Some(CleanOutput(t.banner.text + t.paging.text, command)))
            && (t.connect == Raises(AuthFailure) ==> r.error == Some(AuthMessage))
  {
  }

  /** A session whose command output ends in a prompt: banner, scroll output, chunks up to the prompt. */
  lemma PromptedSession(creds: Credentials, command: string, t: Transcript, k: int)
    requires CredentialsSet(creds)
    requires t.connect.Ok? && t.shell.Ok? && t.banner.Got? && t.paging.Got? && t.send.Ok?
    requires 0 <= k < |t.polls| && t.polls[k].Ready? && IsPromptChunk(t.polls[k].chunk)
    requires forall j :: 0 <= j < k ==> !t.polls[j].PollRaises? && !(t.polls[j].Ready? && IsPromptChunk(t.polls[j].chunk))
    ensures Execute(creds, command, true, t) ==
              CommandResult(Some(CleanOutput(t.banner.text + t.paging.text + Chunks(t.polls[..k + 1]), command)), None,
                            true, true, true, true)
  {
    ReadStopsAtFirstPrompt(t.polls, k);
  }

  /** Running into the deadline with no exception (prompt found or not) reports no error. */
  lemma DeadlineSession(creds: Credentials, command: string, expectPrompt: bool, t: Transcript)
    requires CredentialsSet(creds)
    requires t.connect.Ok? && t.shell.Ok? && t.banner.Got? && t.paging.Got? && t.send.Ok?
    requires forall j :: 0 <= j < |t.polls| ==> !t.polls[j].PollRaises?
    ensures Execute(creds, command, expectPrompt, t).error == None
    ensures !expectPrompt ==>
              Execute(creds, command, expectPrompt, t).output
                == Some(CleanOutput(t.banner.text + t.paging.text + Chunks(t.polls), command))
  {
    DeadlineIsNotAnError(t.polls, expectPrompt);
  }
}
