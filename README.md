# LocalForwarder in Dafny

LocalForwarder is a small console program that reads SSH host configurations
from JSON files and opens local port forwardings through each enabled host.
It connects every enabled host in turn. Along the way it prompts for a
missing user name and, under key authentication, for a missing password,
and it picks a free local port for a forwarding whose LocalPort is 0. It
then waits at a command prompt: `retry` tears everything down and connects
again, while `exit`, `quit` or the end of the input tears down and ends the
program.

The project models the program's core:

- free-port discovery (`GetUsedPortSet`, `GetAvailablePort`);
- a round of `StartLocalForward`;
- `Main`'s command loop with `DisposeAllSshClients`;
- the masked password reader (`ConsoleEx.ReadPassword`, `IsCharKey`).

Files:

- `ports.dfy` (module `Ports`): the port scan, as specification functions
  and as the two loops of the source.
- `console_ex.dfy` (module `ConsoleEx`): `ConsoleKey` with the .NET key
  codes, `IsCharKey`, and the password reader as a fold over a key stream,
  written both as a function and as the source's loop.
- `commands.dfy` (module `Commands`): `String.Trim` and the command prompt.
- `forwarding.dfy` (module `Forwarding`): a round of `StartLocalForward`
  as functions. They map the configurations, the remaining console input
  and the SSH library's answers to the new configurations, the client list
  and the library calls made. The properties of a round are proved here.
- `session.dfy` (module `Session`): `DisposeAllSshClients` and `Main` as
  functions, with the disposal guarantees.
- `program.dfy` (module `Program`): the class `Forwarder`. It holds the
  program's mutable state as fields: the configuration list it edits in
  place, the console input, `Main`'s client list and the library calls so
  far. Its methods follow the source's loops and are proved to produce
  exactly what the functions of `Forwarding` and `Session` describe.

The SSH library is a `Network` value with three answers:

- whether it accepts a connection info (the constructors of
  `PasswordConnectionInfo`, `PrivateKeyConnectionInfo` and
  `PrivateKeyFile`, which run outside the `try`);
- whether `Connect` succeeds for a connection info and keep-alive setting;
- whether `Start` binds a forwarded port.

Every call the program makes into the library is recorded in a trace of
`Call`s. The operating system's port tables are three fixed lists for
other programs' ports, plus the current round's own ports: the local port
of each connected client's TCP connection to its server, and the ports on
which its forwardings listen.

Behaviour the model makes explicit:

- **A failed forwarding.** A failing forwarding ends that host's forward loop
  through the shared `try`. The client stays in the list and the round
  goes on with the next host.
- **Exceptions outside the `try`.** This covers a rejected connection info,
  a missing key file, or a key stream that ends before Enter. Such an
  exception leaves `StartLocalForward`, and `Main` returns 1. The clients
  that round had connected were never returned to `Main`, so they are not
  disposed. `SessionDisposes` states this: after status 1, the disposed
  hosts are only a prefix of the connected ones.
- **Answers are written back.** Typed answers go back into the
  configuration objects, so a round after `retry` asks for nothing
  (`RetryAsksNothing`). Every forwarding that a round reached is left with
  a non-zero LocalPort in the configuration, so a later round does not scan
  for it again (`StartForwardFixesPort` for one step, `RoundFromFixesPorts`
  for a round).
- **The password under key authentication.** The password prompted for
  is stored in the configuration but never reaches the connection. The
  key file is opened with `PassPhrase` (`ConnectionInfoChoice`).
- **The scan bound.** `GetAvailablePort` scans up to the literal 65535,
  not to `endPort`. With an `endPort` below 65535 it can return
  `endPort + 1` (`ScanRunsPastEndPort`). With the default bounds the
  result is -1 or a port of the dynamic range.

## Model

| member | source | states |
|---|---|---|
| Ports.UsedPorts | LocalForwarder/Program.cs:215-246 | a port is in the used set exactly when one of the three tables lists it and it lies in [startPort, endPort] |
| Ports.FirstFree | LocalForwarder/Program.cs:198-206 | the scan's result is -1 or a port in [from, 65535] outside the used set; every port from `from` up to it is used; -1 exactly when all of [from, 65535] is used |
| Ports.GetUsedPortSet | LocalForwarder/Program.cs:215-246 | the three loops build exactly UsedPorts |
| Ports.GetAvailablePort | LocalForwarder/Program.cs:195-207 | returns AvailablePort: the least port at or above startPort, up to 65535, that is not used, or -1 exactly when every such port is used |
| Ports.AvailablePortMeans | LocalForwarder/Program.cs:195-207 | the scan's result read against the port tables: a port found is at or above startPort and not listed within the bounds, every port before it is, and -1 comes exactly when every port from startPort to 65535 is listed within the bounds |
| Ports.ScanRunsPastEndPort | LocalForwarder/Program.cs:197-206 | with endPort < 65535 and all of [startPort, endPort] in use, the result is endPort + 1 |
| Ports.DefaultRangeResult | LocalForwarder/Program.cs:195 | with the default bounds the result is -1 or a port in [49152, 65535], never 0 |
| Ports.FirstFreeIsLeast | LocalForwarder/Program.cs:198-204 | a free port with every port below it used is the scan's result |
| ConsoleEx.IsCharKey | LocalForwarder/ConsoleEx.cs:52-138 | the keys the `switch` lists are not character keys and every other code is; what that selects is stated by CharKeysAreGlyphKeys and UnnamedKeysAreCharKeys |
| ConsoleEx.CharKeysAreGlyphKeys | LocalForwarder/ConsoleEx.cs:52-138 | among named keys, IsCharKey holds exactly for digits, letters, the numeric pad and the OEM keys; Spacebar, Tab, Escape, arrows and F1-F24 are excluded |
| ConsoleEx.UnnamedKeysAreCharKeys | LocalForwarder/ConsoleEx.cs:136-137 | a key code that is no named key is a character key (the `default` branch) |
| ConsoleEx.FirstEnter | LocalForwarder/ConsoleEx.cs:19-26 | the index found is an Enter with no Enter before it; None exactly when there is no Enter |
| ConsoleEx.Step | LocalForwarder/ConsoleEx.cs:27-41 | one pass of the loop for a key other than Enter; BackspaceDropsLast, NonCharKeyIgnored and CharKeyAppends state its three cases |
| ConsoleEx.Typed | LocalForwarder/ConsoleEx.cs:19-41 | the buffer after keys without Enter, one Step per key in order; TypedLengthBound, TypedCharsComeFromCharKeys and CharKeysOnly state what it can hold |
| ConsoleEx.PasswordRead | LocalForwarder/ConsoleEx.cs:19-44 | the password and the number of keys ReadPassword consumes; PasswordReadMeans states what they are |
| ConsoleEx.PasswordReadMeans | LocalForwarder/ConsoleEx.cs:19-44 | None exactly when no key is Enter; otherwise the keys consumed end with the first Enter and the password is the buffer typed before it |
| ConsoleEx.ReadPassword | LocalForwarder/ConsoleEx.cs:16-45 | the loop returns the buffer at the first Enter and the keys consumed (None when the stream ends first); the masks on screen equal the password's length; the output ends with a newline and never erases more masks than it wrote |
| ConsoleEx.EchoExtend | LocalForwarder/ConsoleEx.cs:29-32 | a mask adds one to the screen count, an erase removes one; keeping the count non-negative keeps every prefix non-negative |
| ConsoleEx.NothingAfterEnter | LocalForwarder/ConsoleEx.cs:19-26 | keys after the first Enter do not change the result |
| ConsoleEx.FirstEnterOfExtension | LocalForwarder/ConsoleEx.cs:19-26 | appending keys after an Enter keeps the first Enter |
| ConsoleEx.BackspaceDropsLast | LocalForwarder/ConsoleEx.cs:27-35 | Backspace removes exactly the last character, and nothing from an empty buffer |
| ConsoleEx.NonCharKeyIgnored | LocalForwarder/ConsoleEx.cs:36-39 | a key that is not a character key leaves the buffer unchanged |
| ConsoleEx.CharKeyAppends | LocalForwarder/ConsoleEx.cs:40-41 | a character key appends its KeyChar exactly once |
| ConsoleEx.BackspaceCancelsCharKey | LocalForwarder/ConsoleEx.cs:27-41 | a character key followed by Backspace leaves the buffer as it was |
| ConsoleEx.CharKeysOnly | LocalForwarder/ConsoleEx.cs:36-41 | with character keys only, the password is exactly their characters in order |
| ConsoleEx.TypedLengthBound | LocalForwarder/ConsoleEx.cs:27-41 | the buffer never holds more characters than character keys were pressed |
| ConsoleEx.TypedCharsComeFromCharKeys | LocalForwarder/ConsoleEx.cs:36-41 | a character no character key produced is never in the buffer |
| ConsoleEx.SpacebarNeverTyped | LocalForwarder/ConsoleEx.cs:62 | when only Spacebar produces ' ', the password holds no space |
| Commands.TrimStart | LocalForwarder/Program.cs:59 | the result is a suffix of the line, only white space is dropped, and it does not start with white space |
| Commands.TrimEnd | LocalForwarder/Program.cs:59 | the result is a prefix of the line, only white space is dropped, and it does not end with white space |
| Commands.Trim | LocalForwarder/Program.cs:59 | String.Trim, TrimStart then TrimEnd; its meaning is stated by TrimMeans |
| Commands.TrimMeans | LocalForwarder/Program.cs:59 | the trimmed line is a slice of the line with only white space on either side, and it neither starts nor ends with white space |
| Commands.TrimPadded | LocalForwarder/Program.cs:59 | trimming a word padded with white space gives the word back |
| Commands.TrimStartPadded | LocalForwarder/Program.cs:59 | leading white space is removed exactly |
| Commands.TrimEndPadded | LocalForwarder/Program.cs:59 | trailing white space is removed exactly |
| Commands.ParseCommand | LocalForwarder/Program.cs:53-69 | one line read at the prompt: end of input or "exit"/"quit" after trimming quits, "retry" retries, anything else is read past; PaddedCommands and CaseSensitive state what it accepts |
| Commands.PaddedCommands | LocalForwarder/Program.cs:59-69 | "retry", "exit" and "quit" are recognised with any surrounding white space |
| Commands.CaseSensitive | LocalForwarder/Program.cs:60-69 | a trimmed word other than "exit", "quit" and "retry" (another capitalisation included) is not a command |
| Commands.FirstCommand | LocalForwarder/Program.cs:50-70 | the prompt never reads past its input, and a retry has read at least one line |
| Commands.NextCommand | LocalForwarder/Program.cs:50-70 | the same for the lines of the console |
| Commands.NextCommandStep | LocalForwarder/Program.cs:52-69 | the prompt reads one line, then stops at a command or goes on with the rest |
| Commands.FirstCommandSkipsUnrecognized | LocalForwarder/Program.cs:50-70 | the prompt skips exactly the unrecognised entries before the first command and consumes that command; without one it consumes everything and quits |
| Commands.NextCommandSkipsUnrecognized | LocalForwarder/Program.cs:50-70 | the same, stated on the console lines |
| Forwarding.ConnectionInfoFor | LocalForwarder/Program.cs:110-124 | the connection info built for a host; ConnectionInfoChoice states which kind and what it carries |
| Forwarding.KeepAlive | LocalForwarder/Program.cs:136-139 | the keep-alive interval set before Connect: none when ServerAliveInterval is -1, that interval otherwise; ConnectHostCalls states that the client is connected with it |
| Forwarding.ToUInt32 | LocalForwarder/Program.cs:155-159 | the `(uint)` cast keeps ports in [0, 2^32) unchanged and turns -1 into 4294967295 |
| Forwarding.RequestFor | LocalForwarder/Program.cs:155-159 | the arguments of ForwardedPortLocal: both hosts as configured and both ports through the `(uint)` cast that ToUInt32 states |
| Forwarding.ConnectionInfoChoice | LocalForwarder/Program.cs:110-124 | password connection info exactly when PrivateKeyPath is null; under key authentication the password does not affect the connection info, which carries PassPhrase |
| Forwarding.EnabledFrom | LocalForwarder/Program.cs:149 | the forwards the `Where` filter yields: enabled ones from k on only, in increasing order |
| Forwarding.EnabledFromComplete | LocalForwarder/Program.cs:149 | the filter yields every enabled forward from k on |
| Forwarding.EnabledFromSameFlags | LocalForwarder/Program.cs:149 | the filter depends only on the Enabled flags |
| Forwarding.StartForward | LocalForwarder/Program.cs:151-161 | one forward: only its LocalPort may change, only from 0; the forwarded port is added to the client and started, and a failed Start is recorded |
| Forwarding.FreshPortIsFree | LocalForwarder/Program.cs:151-154 | a LocalPort of 0 becomes the least port of [49152, 65535] that no other program uses and that none of this round's clients holds, neither as the local end of its connection nor as a listening forward, or -1 exactly when there is none |
| Forwarding.StartForwardFixesPort | LocalForwarder/Program.cs:151-154 | a forward the loop reaches keeps a non-zero LocalPort, and a configured one unchanged |
| Forwarding.ForwardsFrom | LocalForwarder/Program.cs:149-176 | the forward loop changes only forwards from k on, each as ForwardUpdated allows, and only appends to the client's ports and to the calls |
| Forwarding.ForwardsFromStopsAtFailure | LocalForwarder/Program.cs:149-184 | when a Start fails the loop is left: the failed forward is at k or later, and every forward after it keeps its LocalPort and everything else |
| Forwarding.ForwardsFromRun | LocalForwarder/Program.cs:149-176 | the loop adds the enabled forwards in order with their final LocalPort, which is not 0, and one Start call each; all but the last were started; it stops early only because the last one failed |
| Forwarding.ConnectHost | LocalForwarder/Program.cs:110-184 | a rejected connection info leaves the round with nothing changed; a failed Connect only records that call, so no LocalPort changes and no Start is made; otherwise at most one client is added, only the host's forward list changes, and the console input is untouched |
| Forwarding.PromptUserName | LocalForwarder/Program.cs:103-108 | a missing user name becomes the next console line (null at end of input) and the line is consumed; otherwise nothing changes |
| Forwarding.PromptPassword | LocalForwarder/Program.cs:115-120 | under key authentication without a password, the keys typed before the first Enter become the password and the keys through that Enter are consumed; None exactly when no Enter comes; otherwise nothing changes |
| Forwarding.ProcessHost | LocalForwarder/Program.cs:101-184 | one host of the round; the configuration list keeps its length, and ProcessHostShape, ProcessHostCalls, ProcessHostClient and ProcessHostPrompts state what it does |
| Forwarding.ProcessHostShape | LocalForwarder/Program.cs:101-184 | one host: a disabled host is skipped untouched; otherwise only its configuration changes, as ConfigUpdated allows; the input only shrinks; at most one client is added |
| Forwarding.HostShapeIsRoundShape | LocalForwarder/Program.cs:101-184 | what one host changes is within what the rest of the round may change |
| Forwarding.RoundFrom | LocalForwarder/Program.cs:98-187 | the host loop from host i on; the configuration list keeps its length, and RoundFromShape, RoundFromCalls, RoundFromClients, RoundFromConnecting, RoundFromSettled and RoundFromResolved state what it does |
| Forwarding.RoundFromShape | LocalForwarder/Program.cs:100-186 | a round changes only configurations, each as ConfigUpdated allows (user name, password and LocalPort filled in, nothing else); input only shrinks; clients and calls are appended |
| Forwarding.ConnectingHostsAscending | LocalForwarder/Program.cs:101 | the hosts that connect are exactly the enabled hosts from i on whose Connect succeeds, in increasing order |
| Forwarding.ConnectHostCalls | LocalForwarder/Program.cs:127-184 | one host's calls concern that host and its enabled forwards; a client is added exactly when Connect succeeds, and it is a client of the host's final configuration |
| Forwarding.HostLoopFacts | LocalForwarder/Program.cs:135-176 | after a successful Connect, the forward loop yields a client of the host with the forwards ForwardsFromRun describes |
| Forwarding.ConnectHostForwards | LocalForwarder/Program.cs:135-176 | a connected host with a forward list adds exactly one client, whatever its forwards do |
| Forwarding.ProcessHostCalls | LocalForwarder/Program.cs:101-184 | one host: calls only for it, if enabled, and for its enabled forwards; the hosts connected are the hosts of the clients added |
| Forwarding.ProcessHostClient | LocalForwarder/Program.cs:101-184 | one host: a disabled host adds nothing; an enabled one that does not throw adds a client exactly when Connect succeeds; one that throws changes neither the clients nor the calls |
| Forwarding.ProcessHostPrompts | LocalForwarder/Program.cs:103-122 | one host: a resolved host reads no input; at most one line is read; a host that gets past the prompts has its password and, unless input ran out, its user name |
| Forwarding.RoundFromCalls | LocalForwarder/Program.cs:100-186 | disabled hosts and disabled forwards are never attempted; the hosts connected are, in order, the hosts of the clients added |
| Forwarding.RoundFromClients | LocalForwarder/Program.cs:100-186 | every client a round adds is a client of its host's final configuration: enabled, connected with its connection info and keep-alive, holding the forwards its loop added, each with a non-zero LocalPort |
| Forwarding.RoundFromFixesPorts | LocalForwarder/Program.cs:151-154 | every forward a round reached is left with a non-zero LocalPort in the configuration the round writes back, so a later round does not scan for it |
| Forwarding.RoundFromConnecting | LocalForwarder/Program.cs:100-186 | a finished round's list holds exactly the enabled hosts whose Connect succeeds, in input order |
| Forwarding.RoundFromSettled | LocalForwarder/Program.cs:103-124 | after a finished round every enabled host has accepted connection info, its password under key authentication, and its user name unless the input ran out |
| Forwarding.RoundFromResolved | LocalForwarder/Program.cs:103-122 | a round over resolved hosts reads no line and no key |
| Session.DisposalTrace | LocalForwarder/Program.cs:252-263 | the calls of DisposeAllSshClients over a client list; DisposalDisposesAll states what they dispose |
| Session.ForwardDisposalsDispose | LocalForwarder/Program.cs:256-259 | the inner loop disposes exactly the client's forwarded ports, in order, and no client |
| Session.DisposalDisposesAll | LocalForwarder/Program.cs:252-263 | every client is disposed, in order, and so is every forwarded port added to it, including one whose Start failed; nothing is connected |
| Session.SessionStep | LocalForwarder/Program.cs:46-74 | a pass of Main's loop that leads to another round has consumed console input |
| Session.RoundConsumes | LocalForwarder/Program.cs:100-186 | a round only consumes console input |
| Session.RoundThenDisposal | LocalForwarder/Program.cs:48-72 | a finished round followed by its teardown disposes exactly the hosts it connected |
| Session.SessionFrom | LocalForwarder/Program.cs:45-76 | Main's `do`-loop from a given state to its status and calls; SessionDisposes states its guarantees |
| Session.SessionDisposes | LocalForwarder/Program.cs:45-90 | the status is 0 or 1; on status 0 every client connected is disposed; on status 1 the disposed hosts are a prefix of the connected ones |
| Session.MainExit | LocalForwarder/Program.cs:23-91 | Main from the loaded files to its status and calls; MainDisposes states its guarantees |
| Session.MainDisposes | LocalForwarder/Program.cs:23-91 | Main's status and disposal guarantee as SessionDisposes states, and status 1 with no call when a file fails to load |
| Session.RetryAsksNothing | LocalForwarder/Program.cs:46-74 | once a round finishes with console input left, a later round over its configurations reads no line and no key |
| Program.Forwarder.ReadLine | LocalForwarder/Program.cs:107 | Console.ReadLine: the next line, or null at end of input, which consumes nothing |
| Program.Forwarder.PromptUserName | LocalForwarder/Program.cs:103-108 | updates the state in place as Forwarding.PromptUserName |
| Program.Forwarder.PromptPassword | LocalForwarder/Program.cs:115-120 | updates the state in place as Forwarding.PromptPassword; the key input is exhausted when it ends before Enter |
| Program.Forwarder.RunForwards | LocalForwarder/Program.cs:149-176 | the forward loop in place produces the forward list, client and calls of Forwarding.ForwardsFrom |
| Program.Forwarder.ConnectHost | LocalForwarder/Program.cs:110-184 | in place, as Forwarding.ConnectHost |
| Program.Forwarder.ProcessHost | LocalForwarder/Program.cs:101-184 | in place, as Forwarding.ProcessHost |
| Program.Forwarder.StartLocalForward | LocalForwarder/Program.cs:98-187 | the host loop in place ends in the state, client list and outcome of Forwarding.RoundFrom |
| Program.Forwarder.DisposeForwards | LocalForwarder/Program.cs:256-259 | appends the disposals of one client's forwarded ports |
| Program.Forwarder.DisposeAllSshClients | LocalForwarder/Program.cs:252-263 | appends Session.DisposalTrace of Main's list and empties the list |
| Program.Forwarder.AwaitCommand | LocalForwarder/Program.cs:50-70 | the prompt loop returns Commands.NextCommand's command and consumes its lines |
| Program.Forwarder.RunRound | LocalForwarder/Program.cs:46-90 | one pass of Main's loop in place, as Session.SessionStep |
| Program.Forwarder.Run | LocalForwarder/Program.cs:45-90 | Main's loop in place ends with the status and calls of Session.SessionFrom |
| Program.LoadAll | LocalForwarder/Program.cs:38-43 | the configuration lists of all files concatenated in order, or None when one fails to load |
| Program.Launch | LocalForwarder/Program.cs:23-91 | Main's status and library calls are those of Session.MainExit |

## Left out

- JSON loading: `ConfigRoot.LoadFromJsonFile` and Newtonsoft deserialisation are I/O and a foreign library. Each file's result is an input, a list of configurations or a failure, and field defaults are not applied. LocalForwarder/Json is not part of this model.
- The default configuration path next to the executable (`args` empty) is left out: the files are given.
- SSH.NET is foreign code. It is replaced by the deterministic answers of `Network`, the same answer for the same arguments. Relaying connections after `Start` and its concurrency happen inside the library.
- The operating system's port enumeration (`IPGlobalProperties`) is replaced by fixed port lists of other programs, plus this round's own ports: each connected client's connection port, an answer of `Network`, and the ports its forwardings listen on. Connections accepted by a started forwarding are not added.
- Forwarding.StartForward: the `ForwardedPortLocal` constructor rejects a null host or a port that is not a valid port number, such as -1 after the `(uint)` cast (4294967295). In the source that throws before `AddForwardedPort`, so the forward is never added to the client or disposed. The model adds it and leaves the outcome to the `starts` answer.
- `Network.starts` depends only on the connection info and the request, so two identical forwards of one client get the same answer. In the source the second would fail to bind the port the first holds.
- Console output, colours, prompts, messages and exception printing are left out. Only the masks and erasures of the password reader are kept, as `Echo`.
- ConsoleEx.Typed: a key's character is a Dafny `char`, a Unicode scalar value, not a UTF-16 code unit. `ReadKey` delivers a character outside the Basic Multilingual Plane as two key events, one per surrogate half, usually with key code 0, which no named key has and `IsCharKey` accepts. So passwords with such characters, and a Backspace that drops only half of a pair, are not modelled.
- ConsoleEx.ReadPassword: the same limit as `ConsoleEx.Typed`; its buffer holds Unicode scalar values, not UTF-16 code units.
- `Console.ReadLine` and `Console.ReadKey` read from two separate finite sequences, so their interleaving on one terminal is not modelled. A key stream that ends before Enter stands for `ReadKey` throwing.
- Program.Forwarder.ConnectHost: the client is appended to the round's list after its forward loop, not before. Clients are values, not shared references: the ports added after `Add` are carried into the stored client. The resulting list is the same.
- Forwarding.ForwardsFrom: the round's client list seen by the port scan holds the current client explicitly (`done + [client]`); in the source the same object is already in the list.
- Program.Forwarder.StartLocalForward: when an exception leaves the round, the method still returns the list it built, for the specification; `Main` ignores it, as the source loses it.
- A negative `startPort` passed to `GetAvailablePort` is allowed by the model but never used by the program. The "-1 exactly when all ports are used" part of `Ports.GetAvailablePort` is stated for non-negative `startPort` only, because -1 would itself be a scanned port.
