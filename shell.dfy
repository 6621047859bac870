// The interactive command shell that runs over an SSH channel's text stream.
//
// The handlers write through one primitive, Print, which does nothing when
// the stream is missing or already closed. (The standard library's command
// loop writes its intro and prompt to the same stream directly, without that
// check; that loop is not part of this model.) Each handler writes one CR LF
// terminated line and returns a signal; the command loop stops after the first
// handler that signals Stop, which only "bye" does.

module CommandShell {

  datatype Option<T> = None | Some(value: T)

  /** What a handler tells the command loop: keep reading, or stop. */
  datatype Signal = Continue | Stop

  /** A command line already split into a handler and its argument text. */
  datatype Command = Greet(arg: string) | Bye(arg: string)

  const LineEnd: string := "\r\n"
  const AnonymousGreeting: string := "Hello there!"
  const Farewell: string := "See you later!"
  const GreetingHead: string := "Hey "
  const GreetingTail: string := "! Nice to see you!"

  /**
   * The handler this shell defines for a command name: a command "c" is
   * served by the handler named do_c, matched exactly and case-sensitively.
   * Handlers inherited from the standard library's command loop are not
   * modelled.
   */
  function Lookup(name: string, arg: string): (c: Option<Command>)
    ensures c == Some(Greet(arg)) <==> name == "greet"
    ensures c == Some(Bye(arg)) <==> name == "bye"
    ensures c == None <==> name != "greet" && name != "bye"
  {
    if name == "greet" then Some(Greet(arg))
    else if name == "bye" then Some(Bye(arg))
    else None
  }

  /** The greeting text: personal when a name is given, generic otherwise. */
  function Greeting(arg: string): string
  {
    if arg != "" then GreetingHead + arg + GreetingTail else AnonymousGreeting
  }

  /** The text a handler writes when the stream is open: one CR LF line. */
  function Response(c: Command): string
  {
    match c
    case Greet(arg) => Greeting(arg) + LineEnd
    case Bye(_) => Farewell + LineEnd
  }

  /** The handler's verdict: only "bye" stops the loop, whatever its argument. */
  function SignalOf(c: Command): (s: Signal)
    ensures s == Stop <==> c.Bye?
  {
    match c
    case Greet(_) => Continue
    case Bye(_) => Stop
  }

  /** Everything a sequence of commands writes, in order. */
  function Transcript(cmds: seq<Command>): string
  {
    if cmds == [] then "" else Response(cmds[0]) + Transcript(cmds[1..])
  }

  /** How many commands the loop runs: up to and including the first "bye". */
  function StopIndex(cmds: seq<Command>): (n: nat)
    ensures n <= |cmds|
  {
    if cmds == [] then 0
    else if cmds[0].Bye? then 1
    else 1 + StopIndex(cmds[1..])
  }

  /** What a whole run writes to an open stream. */
  function RunOutput(cmds: seq<Command>): string
  {
    Transcript(cmds[..StopIndex(cmds)])
  }

  // ---------------------------------------------------------------------------
  // Properties of the handlers and of a run
  // ---------------------------------------------------------------------------

  /**
   * The name a greeting line addresses: the text between "Hey " and
   * "! Nice to see you!\r\n", or "" for the generic greeting.
   */
  function GreetedName(line: string): Option<string>
  {
    var head, tail := GreetingHead, GreetingTail + LineEnd;
    if |line| > |head| + |tail| && line[..|head|] == head && line[|line| - |tail|..] == tail
    then Some(line[|head|..|line| - |tail|])
    else if line == AnonymousGreeting + LineEnd then Some("")
    else None
  }

  /** Every greet line can be read back to the argument that produced it. */
  lemma GreetRoundTrip(arg: string)
    ensures GreetedName(Response(Greet(arg))) == Some(arg)
  {
    var line := Response(Greet(arg));
    var head, tail := GreetingHead, GreetingTail + LineEnd;
    if arg != "" {
      assert line == head + arg + tail;
      assert line[..|head|] == head;
      assert line[|line| - |tail|..] == tail;
      assert line[|head|..|line| - |tail|] == arg;
    } else {
      assert line[..|head|] != head by { assert line[0] == 'H' && line[1] == 'e' && line[2] == 'l'; }
    }
  }

  /** Different arguments give different greetings; no greeting is the farewell. */
  lemma GreetDistinguishes(a: string, b: string)
    ensures Response(Greet(a)) == Response(Greet(b)) ==> a == b
    ensures Response(Greet(a)) != Response(Bye(b))
  {
    GreetRoundTrip(a);
    GreetRoundTrip(b);
    assert Response(Greet(a))[0] == 'H';
    assert Response(Bye(b))[0] == 'S';
  }

  /** The exact line each handler writes. */
  lemma GreetLines(arg: string)
    ensures arg == "" ==> Response(Greet(arg)) == "Hello there!\r\n"
    ensures arg != "" ==> Response(Greet(arg)) == "Hey " + arg + "! Nice to see you!\r\n"
    ensures Response(Bye(arg)) == "See you later!\r\n"
  {
  }

  /** A three-command transcript, unfolded. */
  lemma TranscriptOfThree(a: Command, b: Command, c: Command)
    ensures Transcript([a, b, c]) == Response(a) + Response(b) + Response(c)
  {
    assert [a, b, c][1..] == [b, c];
    assert [b, c][1..] == [c];
    assert Transcript([c]) == Response(c);
    assert Transcript([b, c]) == Response(b) + Response(c);
    AppendAssoc(Response(a), Response(b), Response(c));
  }

  /** The session of GreetThenLeave, on the specification side. */
  lemma GreetThenLeaveOutput()
    ensures StopIndex([Greet(""), Greet("ramon"), Bye("now"), Greet("again")]) == 3
    ensures RunOutput([Greet(""), Greet("ramon"), Bye("now"), Greet("again")])
         == Response(Greet("")) + Response(Greet("ramon")) + Response(Bye("now"))
  {
    var cmds := [Greet(""), Greet("ramon"), Bye("now"), Greet("again")];
    StopIndexAtFirstBye(cmds, 3);
    assert cmds[..3] == [Greet(""), Greet("ramon"), Bye("now")];
    TranscriptOfThree(Greet(""), Greet("ramon"), Bye("now"));
  }

  /** What commands write when every one of them runs is additive over concatenation. */
  lemma {:induction false} TranscriptAppend(a: seq<Command>, b: seq<Command>)
    ensures Transcript(a + b) == Transcript(a) + Transcript(b)
  {
    if a != [] {
      assert (a + b)[1..] == a[1..] + b;
      TranscriptAppend(a[1..], b);
    } else {
      assert a + b == b;
    }
  }

  /** Stated once so that the loop in Run does not search for it. */
  lemma AppendAssoc(a: string, b: string, c: string)
    ensures a + b + c == a + (b + c)
  {
  }

  /** Running one more command extends the transcript by that command's line. */
  lemma TranscriptStep(cmds: seq<Command>, k: nat)
    requires k < |cmds|
    ensures Transcript(cmds[..k + 1]) == Transcript(cmds[..k]) + Response(cmds[k])
  {
    TranscriptAppend(cmds[..k], [cmds[k]]);
    assert Transcript([cmds[k]]) == Response(cmds[k]);
    assert cmds[..k + 1] == cmds[..k] + [cmds[k]];
  }

  /**
   * The loop stops right after the first "bye": every earlier command is a
   * greet, and the run covers the whole input exactly when no "bye" occurs.
   */
  lemma {:induction false} StopIndexIsFirstBye(cmds: seq<Command>)
    ensures forall j :: 0 <= j < StopIndex(cmds) - 1 ==> cmds[j].Greet?
    ensures (exists i :: 0 <= i < |cmds| && cmds[i].Bye?)
        <==> 0 < StopIndex(cmds) && cmds[StopIndex(cmds) - 1].Bye?
  {
    if cmds != [] && !cmds[0].Bye? {
      StopIndexIsFirstBye(cmds[1..]);
      assert forall j :: 1 <= j < |cmds| ==> cmds[j] == cmds[1..][j - 1];
    }
  }

  /** Without a "bye" the loop runs every command. */
  lemma {:induction false} StopIndexWithoutBye(cmds: seq<Command>)
    requires forall j :: 0 <= j < |cmds| ==> cmds[j].Greet?
    ensures StopIndex(cmds) == |cmds|
  {
    if cmds != [] {
      StopIndexWithoutBye(cmds[1..]);
    }
  }

  /** A prefix ending in the first "bye" fixes where the loop stops. */
  lemma {:induction false} StopIndexAtFirstBye(cmds: seq<Command>, k: nat)
    requires 0 < k <= |cmds| && cmds[k - 1].Bye?
    requires forall j :: 0 <= j < k - 1 ==> cmds[j].Greet?
    ensures StopIndex(cmds) == k
  {
    if k > 1 {
      StopIndexAtFirstBye(cmds[1..], k - 1);
    }
  }

  /** Commands after a "bye" are never run and add nothing to the output. */
  lemma {:induction false} LaterCommandsSilent(cmds: seq<Command>, later: seq<Command>)
    requires exists i :: 0 <= i < |cmds| && cmds[i].Bye?
    ensures StopIndex(cmds + later) == StopIndex(cmds)
    ensures RunOutput(cmds + later) == RunOutput(cmds)
  {
    StopIndexIsFirstBye(cmds);
    var k := StopIndex(cmds);
    var all := cmds + later;
    assert all[k - 1] == cmds[k - 1];
    assert forall j :: 0 <= j < k - 1 ==> all[j] == cmds[j];
    StopIndexAtFirstBye(all, k);
    assert all[..k] == cmds[..k];
  }

  // ---------------------------------------------------------------------------
  // The stream and the shell
  // ---------------------------------------------------------------------------

  /** The write side of the channel's text stream. */
  class TextStream {
    var closed: bool
    var text: string

    constructor ()
      ensures !closed && text == ""
    {
      closed := false;
      text := "";
    }

    /** Writing to a closed stream is an error, so callers must check first. */
    method Write(s: string)
      requires !closed
      modifies this
      ensures !closed && text == old(text) + s
    {
      text := text + s;
    }

    /** Marks the stream closed; later writes are refused. */
    method Close()
      modifies this
      ensures closed && text == old(text)
    {
      closed := true;
    }
  }

  class Shell {
    /** The output stream; it may be missing. */
    const stdout: TextStream?

    constructor (stdout: TextStream?)
      ensures this.stdout == stdout
    {
      this.stdout := stdout;
    }

    /** Whether Print reaches the stream: it exists and is not closed. */
    predicate CanWrite()
      reads this, stdout
    {
      stdout != null && !stdout.closed
    }

    /** All text written to the stream so far ("" when there is no stream). */
    function Output(): string
      reads this, stdout
    {
      if stdout == null then "" else stdout.text
    }

    /** Writes value when the stream can take it, otherwise silently nothing. */
    method Print(value: string)
      modifies stdout
      ensures CanWrite() == old(CanWrite())
      ensures Output() == old(Output()) + (if old(CanWrite()) then value else "")
    {
      if stdout != null && !stdout.closed {
        stdout.Write(value);
      }
    }

    /** Prints value as one line terminated by CR LF. */
    method PrintLine(value: string)
      modifies stdout
      ensures CanWrite() == old(CanWrite())
      ensures Output() == old(Output()) + (if old(CanWrite()) then value + LineEnd else "")
    {
      Print(value + LineEnd);
    }

    /** The "greet [name]" handler. */
    method DoGreet(arg: string) returns (signal: Signal)
      modifies stdout
      ensures signal == Continue
      ensures CanWrite() == old(CanWrite())
      ensures Output() == old(Output()) + (if old(CanWrite()) then Response(Greet(arg)) else "")
    {
      if arg != "" {
        PrintLine(GreetingHead + arg + GreetingTail);
      } else {
        PrintLine(AnonymousGreeting);
      }
      signal := Continue;
    }

    /** The "bye" handler: a farewell line, then the stop signal. */
    method DoBye(arg: string) returns (signal: Signal)
      modifies stdout
      ensures signal == Stop
      ensures CanWrite() == old(CanWrite())
      ensures Output() == old(Output()) + (if old(CanWrite()) then Response(Bye(arg)) else "")
    {
      PrintLine(Farewell);
      signal := Stop;
    }

    /** Runs the handler for one command. */
    method OneCmd(c: Command) returns (signal: Signal)
      modifies stdout
      ensures signal == SignalOf(c)
      ensures CanWrite() == old(CanWrite())
      ensures Output() == old(Output()) + (if old(CanWrite()) then Response(c) else "")
    {
      match c
      case Greet(arg) => signal := DoGreet(arg);
      case Bye(arg) => signal := DoBye(arg);
    }

    /**
     * The command loop over already-parsed commands: runs them in order until
     * a handler signals Stop or the input is exhausted, and reports how many
     * ran.
     */
    method Run(cmds: seq<Command>) returns (executed: nat)
      modifies stdout
      ensures executed == StopIndex(cmds)
      ensures CanWrite() == old(CanWrite())
      ensures Output() == old(Output()) + (if old(CanWrite()) then RunOutput(cmds) else "")
    {
      ghost var open, before := CanWrite(), Output();
      executed := 0;
      var signal := Continue;
      while signal == Continue && executed < |cmds|
        invariant executed <= |cmds|
        invariant forall j :: 0 <= j < executed - 1 ==> cmds[j].Greet?
        invariant signal == Continue ==> forall j :: 0 <= j < executed ==> cmds[j].Greet?
        invariant signal == Stop ==> 0 < executed && cmds[executed - 1].Bye?
        invariant CanWrite() == open
        invariant open ==> Output() == before + Transcript(cmds[..executed])
        invariant !open ==> Output() == before
        decreases |cmds| - executed
      {
        ghost var done := Transcript(cmds[..executed]);
        signal := OneCmd(cmds[executed]);
        TranscriptStep(cmds, executed);
        AppendAssoc(before, done, Response(cmds[executed]));
        executed := executed + 1;
      }
      if signal == Stop {
        StopIndexAtFirstBye(cmds, executed);
      } else {
        StopIndexWithoutBye(cmds);
      }
      assert RunOutput(cmds) == Transcript(cmds[..executed]);
    }
  }

  /**
   * A client session over a fresh stream: a generic greeting, a personal one,
   * the farewell; the greet after "bye" is never run.
   */
  method GreetThenLeave() returns (written: string, executed: nat)
    ensures executed == 3
    ensures written == Response(Greet("")) + Response(Greet("ramon")) + Response(Bye("now"))
  {
    var stream := new TextStream();
    var shell := new Shell(stream);
    var cmds := [Greet(""), Greet("ramon"), Bye("now"), Greet("again")];
    executed := shell.Run(cmds);
    written := stream.text;
    GreetThenLeaveOutput();
  }

  /** The handlers on a stream already closed: nothing is written, "bye" still stops. */
  method LeaveOnClosedStream() returns (written: string, executed: nat)
    ensures executed == 2
    ensures written == ""
  {
    var stream := new TextStream();
    stream.Close();
    var shell := new Shell(stream);
    var cmds := [Greet("ramon"), Bye(""), Greet("")];
    executed := shell.Run(cmds);
    written := stream.text;
    StopIndexAtFirstBye(cmds, 2);
  }
}
