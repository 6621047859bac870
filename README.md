# A verified model of a tutorial SSH server's shell and policy

The server authenticates one hard-coded credential over SSH, opens a session
channel and attaches a small line-oriented command shell to it. Two parts of it
make decisions that can be stated and proved; this project models both.

- `ssh_server_interface.dfy`, module `SshServerInterface`: the authentication and
  channel policy the SSH library consults during the handshake. Channel-open
  approval only for kind `"session"` (section 5.1 of RFC 4254), unconditional
  pty-req and shell approval (sections 6.2 and 6.5 of RFC 4254), exact-match
  password authentication against `admin`/`password` (section 8 of RFC 4252),
  and the pre-authentication banner with its language tag (section 5.4 of
  RFC 4252; the tag syntax is that of section 2.1 of RFC 3066). The library's
  result constants are enumerations (`ChannelOpenResult`, `AuthResult`). All
  members are pure functions.
- `shell.dfy`, module `CommandShell`: the shell. `TextStream` is the write side
  of the channel stream (its text so far and a `closed` flag); `Shell` holds the
  stream, which may be missing, and has the output primitive `Print`, `PrintLine`,
  the two handlers `DoGreet` and `DoBye`, a dispatch step `OneCmd` and a command
  loop `Run` over already-parsed commands. Each method states the stream's whole
  new text in terms of its old text. The pure side (`Response`, `SignalOf`,
  `Transcript`, `StopIndex`, `RunOutput`) says what a handler writes, whether it
  stops the loop, and what a whole run writes. Lemmas about it prove that the
  loop stops right after the first `bye`, that later commands add nothing, and
  that a greeting line can be read back to the name it greets.

## Model

| member | source | states |
|---|---|---|
| `SshServerInterface.CheckChannelRequest` | src/ssh_server_interface.py:10-13 | the channel opens if and only if the kind is exactly `"session"`; every other kind gets administratively-prohibited and no other failure reason |
| `SshServerInterface.ChannelRequestIgnoresChanid` | src/ssh_server_interface.py:10-13 | the channel-open decision is the same for every channel number |
| `SshServerInterface.CheckChannelPtyRequest` | src/ssh_server_interface.py:17-18 | a pty request is granted for every channel, terminal type, size and mode list |
| `SshServerInterface.CheckChannelShellRequest` | src/ssh_server_interface.py:21-22 | a shell request is granted on every channel |
| `SshServerInterface.CheckAuthPassword` | src/ssh_server_interface.py:31-34 | success if and only if the username is exactly `admin` and the password exactly `password`; failure if and only if either differs; never partial success |
| `SshServerInterface.OnlyOneCredential` | src/ssh_server_interface.py:31-34 | any two accepted credential pairs are the same pair |
| `SshServerInterface.AdmitsShellIff` | src/ssh_server_interface.py:10-34 | the policy's four decisions (password, channel open, pty request with any arguments, shell request) all approve if and only if the client uses the configured pair and a `"session"` channel |
| `SshServerInterface.GetBanner` | src/ssh_server_interface.py:40-41 | the banner message is the single CR LF terminated line `My SSH Server`, and the language tag `en-US` is a valid RFC 3066 tag with subtags `en` and `US` |
| `SshServerInterface.SplitJoin` | src/ssh_server_interface.py:40-41 | splitting a tag at its dashes undoes joining dash-free subtags, so the subtags of the banner's tag are exactly `en` and `US` |
| `SshServerInterface.JoinSplit` | src/ssh_server_interface.py:40-41 | joining the pieces of a split at `-` gives back the original text |
| `CommandShell.TextStream.Write` | src/shell.py:27-28 | a write on an open stream appends exactly its argument and leaves it open; the stream's own write fails on a closed stream, so Write requires an open one and callers guard it |
| `CommandShell.Shell.constructor` | src/shell.py:19-21 | the shell keeps the stream it is given, possibly none |
| `CommandShell.Shell.Print` | src/shell.py:24-29 | appends exactly the value when the stream exists and is open; otherwise the text is unchanged and nothing fails; openness is unchanged |
| `CommandShell.Shell.PrintLine` | src/shell.py:31-32 | appends exactly value followed by CR LF, under the same guard as Print |
| `CommandShell.Shell.DoGreet` | src/shell.py:38-42 | appends the greet line for the argument (nothing on a closed or missing stream) and returns Continue |
| `CommandShell.Shell.DoBye` | src/shell.py:45-50 | appends `See you later!` CR LF (nothing on a closed or missing stream) and returns Stop whatever the argument |
| `CommandShell.Shell.OneCmd` | src/shell.py:34-37 | runs the handler the command names: appends that command's response and returns its signal |
| `CommandShell.Shell.Run` | src/shell.py:48-50 | runs exactly StopIndex(cmds) commands and the stream's text grows by exactly their transcript, which is the old text extended, never rewritten |
| `CommandShell.Lookup` | src/shell.py:34-37 | among the handlers this shell defines, command `greet` finds the greet handler and `bye` the bye handler, by exact case-sensitive name; any other name finds none of them (inherited handlers such as `help` are left out) |
| `CommandShell.SignalOf` | src/shell.py:38-50 | a handler signals Stop if and only if it is `bye` |
| `CommandShell.GreetLines` | src/shell.py:38-50 | greet with an empty argument writes `Hello there!` CR LF, with a name writes `Hey <name>! Nice to see you!` CR LF; bye writes `See you later!` CR LF |
| `CommandShell.GreetRoundTrip` | src/shell.py:38-42 | reading the name back out of any greet line gives the argument that produced it (the empty name for the generic greeting) |
| `CommandShell.GreetDistinguishes` | src/shell.py:38-50 | different names give different greet lines, and no greet line equals the farewell |
| `CommandShell.StopIndexIsFirstBye` | src/shell.py:48-50 | every command the loop runs before the last one is a greet; the last one run is a `bye` if and only if the input contains a `bye` |
| `CommandShell.StopIndexAtFirstBye` | src/shell.py:48-50 | when the first `bye` is the k-th command, the loop runs exactly k commands |
| `CommandShell.StopIndexWithoutBye` | src/shell.py:48-50 | without a `bye` the loop runs every command |
| `CommandShell.LaterCommandsSilent` | src/shell.py:48-50 | commands after a `bye` change neither how many commands run nor what the run writes |
| `CommandShell.TranscriptAppend` | src/shell.py:24-32 | what a command sequence writes when every command runs is additive: the text for `a + b` is the text for `a` followed by the text for `b` |
| `CommandShell.GreetThenLeave` | src/shell.py:38-50 | on a fresh stream, greet, greet ramon, bye, greet runs three commands and writes the generic greeting, the greeting for ramon and the farewell, in that order |
| `CommandShell.LeaveOnClosedStream` | src/shell.py:27-50 | on a stream already closed the same kind of session writes nothing and still stops at the `bye` |

## Left out

- The listener base class, its accept thread and running flag (the module it lives in is not part of this model): concurrency and sockets.
- The connection adapter in src/ssh_server.py: creating the SSH transport, loading the host key from a file, the handshake, `accept`, `makefile` and the blanket exception suppression. These are calls into the SSH library and network I/O.
- main.py: the process entry point and its hard-coded key path.
- The internals of the standard library's command loop, which are not part of this model: reading a line, splitting it into command and argument, the empty-line hook, the unknown-command message, the intro and the prompt, and what it does at end of input. `Run` takes already-parsed commands, and `Lookup` returns no handler for an unknown name without modelling the message. Only the stop-when-a-handler-returns-true rule is modelled. The shell sets `use_rawinput` to false, which makes that loop write its prompt `My Shell> ` to the given stream and read lines from it; the intro and the prompt are written with the stream's own write, without the closed check of `Print`, so on a stream already closed the real loop fails at the intro before its first command, which `LeaveOnClosedStream` does not show.
- `flush()` after each write, and the tab-completion setting: they have no observable effect on the written text.
- CommandShell.Shell.constructor: the standard library replaces a missing output stream by the process's standard output; that code is not part of this model, so the shell keeps whatever stream it is given and `Print` keeps the source's guard for a missing stream.
- The stream being closed in the middle of a run: `TextStream.Close` exists, but `Run` does not interleave it with commands, so within one run the stream stays open or stays closed.
- Channel numbers are naturals and terminal modes a byte sequence; the SSH library's channel object is not modelled.
- The SSH library's integer values of the result constants: the results are enumerations.
- CommandShell.Lookup: only the handlers this shell defines are modelled. The standard library's command loop also finds inherited handlers by the same do_ naming rule, notably `help`, which writes help text and does not stop the loop; that code is not part of this model, so `Lookup` returns no handler for `help` and `Run`'s input holds only greet and bye commands. A run with `help` or an unknown command between other commands is not covered.
- CommandShell.TextStream.Write: a write to a stream not flagged closed is assumed to succeed. Any other failure of the stream's own write or flush would pass out of `Print` and the handler as an exception and end the command loop early (the connection adapter swallows it); that path is not modelled, so `Run` always runs exactly `StopIndex(cmds)` commands. The program also reads commands from the same stream object it writes to, so a closed stream would in practice deliver no further commands; `Run` takes its commands as a parameter.
