# fabnctl deployment sequences, modelled in Dafny

This project models the deterministic core of the `fabnctl` command-line tool, which
deploys a Hyperledger Fabric network onto Kubernetes. It covers three parts of the tool.

- **`deployChannel`** (`cli/cmd/deploy_channel.go`) sets up a channel for one
  organisation. It checks its flags and derives the pod names, the readiness selectors
  and the three `peer channel` command lines. It then waits for the peer pod and the cli
  pod. It probes for the channel with `fetch`, creates the channel only when the probe's
  remote command fails, and joins the peer to the channel.
- **`deployOrderer`** (`cli/cmd/deploy_orderer.go`) deploys the orderer service. It
  derives the TLS paths and the secret names, and reads the key, the certificate and the
  CA certificate. It writes the TLS secret and then the CA secret, merges the chart
  values so that `domain` always holds the configured domain, and installs the orderer
  chart.
- **The interactive logger** (`cli/shared/logger.go`) provides:
  - the log levels and their prefix spinners;
  - the two decorators, which wrap a unit of work in a spinner that starts, shows a
    text, persists exactly one line and stops;
  - the console drain loop of `StartInteractiveConsole` and its `fakeConsoleFile`.

## How effects are modelled

Every effect becomes an `Event` appended to the trace of one `Shared.Session`. The
effects are the spinner calls, printed lines, pod waits, remote commands, file reads,
secret writes, the values-file load and the chart install. The session stands for the
process-wide `ILogger` and for the outside world.

The outcome of each effect is an input:
- a `Cluster` value for the channel command;
- an `Env` value for the orderer command.

`util.WaitForPodReady` takes the pod name by pointer (`&peerPodName`, `&cliPodName`) and
may write the name of the pod it found back through it. A ready wait therefore carries
the resolved pod name, and the remote commands run in the cli pod's resolved name rather
than in the name derived from the flags.

Each command has:
- a specification function (`DeployChannel.Channel`, `DeployOrderer.Orderer`) that gives
  the returned error and the events of a run;
- an imperative method proved equal to it;
- lemmas that state the source's promises about the specification.

Each Go function is split into a few methods, one per phase, with a specification
function per phase:
- `DeployChannel`, then `WaitAndRun`, then `RunCommands`;
- `DeployOrderer`, then `CreateSecrets`, then `InstallOrdererChart`.

The statements keep the order and the early returns of the Go code.

Errors follow `github.com/pkg/errors`:
- `Fundamental` is `errors.New`;
- `Wrapped` is `errors.Wrap` / `errors.Wrapf`;
- `Cause` is `errors.Cause`;
- the remote-command sentinel is its own constructor.

The console is a class over the pipe's buffer:
- a `Tick` method is one firing of the ticker case of the loop's `select`;
- a `Done` method is the `ctx.Done()` case;
- `Run` drives the loop over a schedule of steps.

The class invariant states three things:
- the strings read, followed by what is still buffered, are exactly the bytes written;
- every string read is something `ReadString('\n')` can return;
- the printed lines are determined by the strings read, and none is blank.

Where the code differs from the documented design of the tool, the model follows the
code:
- A declined pod wait ends `deployChannel` with no error.
- A failed chart install ends `deployOrderer` with no error. The failure is only shown
  by the spinner.
- A non-remote failure of the channel creation is replaced by the fixed error
  "Failed to create channel", so its cause is not kept.
- The drain loop does not stop at the instant the context is cancelled. Go's `select`
  may still pick a pending tick, so `Tick` is allowed while `cancelled` holds. The loop
  returns only when the `Done` case is taken, and after that it reads nothing.
- `ReadString('\n')` blocks when no newline has arrived and the writer is open. It does
  not return a partial line.
- Only a read that is exactly `"\n"` is suppressed. A read like `"\n\n"` cannot occur,
  because a read ends at its first newline.

## Model

Helpers that only render a fixed source text, or that hold the drain loop's invariant,
have no row of their own; the rows of the members that use them state their content:
- `JoinPath` through `JoinPathShape`, `JoinPathAppend` and `JoinPathPair`, and `TlsDir` through `TlsDirText`;
- the messages `ExistsMessage`, `CreateStart`, `CreateComplete`, `JoinStart`, `JoinComplete` and `DeployedMessage` through the `DeployChannel` lemmas whose traces hold them;
- `SecretLabels` through `TlsSecret` and `CaSecret`, and `SecretCreated`, `InstallStart`, `InstallComplete` and `OrdererDeployed` through `SecretsEffects`, `SecretLineIsNotClosing` and `ChartClosingLine`;
- `InteractiveConsole.Valid` through `ReadKeepsInvariant`, `NoBlankLinePrinted` and the methods that keep it.

| member | source | states |
|---|---|---|
| Errors.Error.Cause | cli/cmd/deploy_channel.go:113 | `errors.Cause` reaches a root that is not a wrap layer; an error that is not wrapped is its own cause, and a wrapped one has its inner error's cause |
| Errors.WrapKeepsClassification | cli/cmd/deploy_channel.go:113-114 | wrapping an error any number of times keeps its cause, so it is a remote-command failure exactly when the inner error is |
| Errors.Error.Message | cli/shared/logger.go:88 | `err.Error()` of a wrapped error begins with the wrap message followed by `": "` |
| Errors.MessageEndsWithCause | cli/shared/logger.go:88 | every error's text ends with the text of its root cause, so a failure persisted by the spinner still shows the original error |
| Shared.PrefixesSelectTheirEmoji | cli/shared/logger.go:70-76 | the prefix map holds exactly the five levels `ILogSuccess`..`ILogInfo`, each mapped to a one-frame spinner of its own configured emoji; any other level looks up the zero spinner |
| Shared.LogPrefixes | cli/shared/logger.go:70-76 | the map has exactly the five named levels as keys, each mapped to a spinner of exactly one frame |
| Shared.PrefixFor | cli/shared/logger.go:105 | indexing the prefix map gives the level's spinner when the level is a key, and the zero spinner (no frames) otherwise, as a Go map read does |
| Shared.Session.constructor | cli/shared/logger.go:69 | a new logger is stopped and has an empty trace |
| Shared.Session.Start | cli/shared/logger.go:83 | `Start` sets the spinner running and appends exactly one start event |
| Shared.Session.Text | cli/shared/logger.go:86 | `Text` appends exactly the text event and leaves the spinner as it was |
| Shared.Session.PersistWith | cli/shared/logger.go:88 | `PersistWith` appends exactly the persisted line with its prefix and leaves the spinner as it was |
| Shared.Session.Stop | cli/shared/logger.go:84 | `Stop` stops the spinner and appends exactly one stop event |
| Shared.Session.Record | cli/shared/logger.go:87 | calling `fn` appends exactly its effects and leaves the spinner as it was |
| Shared.Decorated | cli/shared/logger.go:82-95 | a decorated trace is four events longer than the work: start and the start text, then exactly the work's effects, then one persist and the stop |
| Shared.DecoratedWithPersist | cli/shared/logger.go:99-106 | a decorated trace is four events longer than the work: start and the start text, then exactly the work's effects, then the persist of the returned level's prefix with `" " + msg`, then the stop |
| Shared.DecorateWithInteractiveLog | cli/shared/logger.go:82-95 | returns exactly the error `fn` returned (nil iff `fn` returned nil), leaves the spinner stopped, and appends start, the start text, `fn`'s effects, one persist (error prefix and `" " + err.Error()` on failure, success prefix and `" " + complete` otherwise) and stop |
| Shared.DecorateWithInteractiveLogWithPersist | cli/shared/logger.go:99-106 | leaves the spinner stopped and appends start, the start text, `fn`'s effects, one persist with the prefix of the level `fn` returned and `" " + msg`, and stop |
| Shared.CountInDecorated | cli/shared/logger.go:82-95 | decorating work adds only spinner events: any other event occurs in the decorated trace exactly as often as in the work's effects |
| Shared.DecoratedEffects | cli/shared/logger.go:82-95 | every event of a decorated call that is not a spinner event is one of the work's effects |
| Shared.DecoratedPersistsOnce | cli/shared/logger.go:83-94 | a decorated call persists exactly once, with the failure or success line chosen by `fn`'s error; the trace opens with start and the start text, then `fn`'s effects, and ends with the only stop; start happens exactly once |
| Shared.DecoratedWithPersistPersistsOnce | cli/shared/logger.go:100-105 | the persisting variant persists exactly once, with the prefix of the returned level and `" " + msg`; the trace opens with start and the start text, then `fn`'s effects, and ends with stop |
| Console.ReadString | cli/shared/logger.go:123 | a read completes iff a newline is buffered or the writer is closed; the string read followed by the rest is the buffer; the string read holds at most one newline, as its last character; with a newline buffered the read ends in it, and at end of file it takes everything |
| Console.TrimLeft | cli/shared/logger.go:131 | the result is a suffix of the input that does not start with a newline, and everything removed is newlines |
| Console.TrimRight | cli/shared/logger.go:131 | the result is a prefix of the input that does not end with a newline, and everything removed is newlines |
| Console.Trim | cli/shared/logger.go:131 | the result is the slice of the input between its leading newlines and its trailing newlines, everything removed on either side being newlines; it neither starts nor ends with a newline, and a string without newlines is unchanged |
| Console.PrintedLine | cli/shared/logger.go:126-131 | a read gives no line iff it is empty or a lone newline |
| Console.Printed | cli/shared/logger.go:126-131 | a read prints at most one line: none exactly when `PrintedLine` gives none, and otherwise exactly the line `PrintedLine` gives |
| Console.PrintedOfLine | cli/shared/logger.go:126-131 | for anything `ReadString` returns, a tick prints nothing for an empty read or a lone newline, and otherwise exactly the read without its final newline |
| Console.ReadLinePrintsItself | cli/shared/logger.go:126-131 | for anything `ReadString` returns, a line is printed iff the read is neither empty nor a lone newline; the printed line is non-empty, holds no newline, and is the read with at most its final newline removed |
| Console.PrintedOfLineNonBlank | cli/shared/logger.go:126-131 | what one read prints is never blank and never holds a newline |
| Console.NoBlankLinePrinted | cli/shared/logger.go:126-131 | over any sequence of reads, no printed line is empty or holds a newline |
| Console.ReadKeepsInvariant | cli/shared/logger.go:123-131 | consuming one read keeps every written byte accounted for (reads so far, then the buffer) and keeps the printed lines equal to those the reads produce, none blank |
| Console.DrainClosed | cli/shared/logger.go:122-128 | once the writer is closed, repeated `ReadString('\n')` calls, each consuming what the previous one left, return every buffered byte exactly once and in order, each return a non-empty line |
| Console.InteractiveConsole.constructor | cli/shared/logger.go:109-117 | the pipe starts empty, with nothing printed, the loop running, the context live and the writer open |
| Console.InteractiveConsole.Write | cli/shared/logger.go:110 | a write to the open pipe appends to the buffer and to the bytes written; a write after close fails and changes nothing |
| Console.InteractiveConsole.CloseWriter | cli/shared/logger.go:110 | closing the pipe's writer end sets the closed flag and changes nothing else |
| Console.InteractiveConsole.Cancel | cli/shared/logger.go:120 | cancelling the context sets the cancelled flag and changes nothing else |
| Console.InteractiveConsole.Tick | cli/shared/logger.go:122-132 | a tick of the running loop with a completed read consumes exactly the read, records it, and prints what `Printed` gives (nothing for an empty read or a lone newline, the trimmed read otherwise); otherwise it changes nothing; the invariant is kept |
| Console.InteractiveConsole.Done | cli/shared/logger.go:120-121 | once the context is cancelled, the done case stops the loop and changes nothing else |
| Console.InteractiveConsole.Run | cli/shared/logger.go:116-135 | any interleaving of writes, close, cancellation and the two select cases keeps the invariant, only extends the reads, and never prints a blank line; a loop that has returned reads and prints nothing more |
| Console.FakeConsoleFile.Close | cli/shared/logger.go:150-152 | `Close` always returns nil |
| Console.FakeConsoleFile.Name | cli/shared/logger.go:158-160 | `Name` always returns `""` |
| Console.StartInteractiveConsole | cli/shared/logger.go:108-143 | returns a file whose writer is a fresh, empty pipe with its loop running and whose reader is nil |
| DeployChannel.PeerPodName | cli/cmd/deploy_channel.go:57 | the peer pod's name is the peer hostname followed by `.<org>.org` |
| DeployChannel.CliPodName | cli/cmd/deploy_channel.go:58 | the cli pod's name is `cli.` followed by the peer pod's name |
| DeployChannel.PeerSelector | cli/cmd/deploy_channel.go:65 | the peer pod's readiness selector is `fabnetd/app=` followed by the peer pod's name |
| DeployChannel.CliSelector | cli/cmd/deploy_channel.go:76 | the cli pod's readiness selector is `fabnetd/app=` followed by the cli pod's name |
| DeployChannel.JoinWords | cli/cmd/deploy_channel.go:85-103 | `strings.Join` with a space: the joined text begins with the first word |
| DeployChannel.JoinWordsAppend | cli/cmd/deploy_channel.go:85-103 | `strings.Join` with a space over two non-empty lists of words is the join of the first, one space, and the join of the second |
| DeployChannel.OrdererAddress | cli/cmd/deploy_channel.go:93 | the orderer address is `<hostname>.<domain>` followed by `:443` |
| DeployChannel.JoinCmd | cli/cmd/deploy_channel.go:85-88 | the join command is `peer channel join -b <channel>.block`, its words separated by single spaces |
| DeployChannel.FetchCmd | cli/cmd/deploy_channel.go:90-95 | the probe is `peer channel fetch config <channel>.block -c <channel> -o <orderer address> --tls --cafile $ORDERER_CA` |
| DeployChannel.CreateCmd | cli/cmd/deploy_channel.go:97-103 | the creation is `peer channel create -c <channel> -f ./channel-artifacts/<channel>.tx -o <orderer address> --tls --cafile $ORDERER_CA` |
| DeployChannel.CommandsDiffer | cli/cmd/deploy_channel.go:84-104 | the three command lines are pairwise different, so a trace tells them apart |
| DeployChannel.FlagError | cli/cmd/deploy_channel.go:40-54 | the flags are checked in the order org, peer, channel; a parse error is returned wrapped with its cause kept, and an empty org or channel gives its fixed "not specified" error |
| DeployChannel.CreateWork | cli/cmd/deploy_channel.go:121-130 | the creation closure issues exactly the creation command in the pod and namespace; it fails iff the command does; its error is a remote-command failure iff the command's is, and then keeps the command's cause |
| DeployChannel.JoinWork | cli/cmd/deploy_channel.go:138-147 | the join closure issues exactly the join command in the pod and namespace; it fails iff the command does, and its error keeps the command's cause |
| DeployChannel.Channel | cli/cmd/deploy_channel.go:30-156 | a run holds no event at all iff a flag is rejected, and then returns that flag's error |
| DeployChannel.Deploy | cli/cmd/deploy_channel.go:61-82 | the first event is the peer pod's wait, and a peer wait that is not ready is the only event |
| DeployChannel.Commands | cli/cmd/deploy_channel.go:106-115 | the commands phase opens with the probe, run in the given pod and namespace |
| DeployChannel.CreateAndJoin | cli/cmd/deploy_channel.go:117-155 | a phase that returns nil ends with the "successfully deployed" line |
| DeployChannel.DeployChannel | cli/cmd/deploy_channel.go:30-156 | the command returns the error of `Channel` and appends exactly its events |
| DeployChannel.WaitAndRun | cli/cmd/deploy_channel.go:61-155 | after the flags: returns the error of `Deploy` (the two waits, then the commands) and appends exactly its events |
| DeployChannel.RunCommands | cli/cmd/deploy_channel.go:84-155 | after both waits: returns the error of `Commands` (probe, conditional creation, join) and appends exactly its events |
| DeployChannel.CreateAndJoinChannel | cli/cmd/deploy_channel.go:117-155 | after the probe: the creation and the join return the error of `CreateAndJoin` and append exactly its events |
| DeployChannel.FlagsCheckedFirst | cli/cmd/deploy_channel.go:40-54 | a run issues no event at all iff a flag is rejected, and then returns that flag's error; an empty organisation or channel returns its "not specified" error |
| DeployChannel.PeerWaitedBeforeCli | cli/cmd/deploy_channel.go:61-82 | the first event is the peer pod's wait and, once the peer is ready, the second is the cli pod's; a wait error is returned unchanged, and a declined wait returns nil with only the waits in the trace |
| DeployChannel.ChannelRunsCommands | cli/cmd/deploy_channel.go:61-82 | the waits issue no remote command: with both pods ready the run returns the commands' error and holds each command as often as they do; otherwise it holds none |
| DeployChannel.CreateAndJoinIssued | cli/cmd/deploy_channel.go:117-155 | after a probe that does not abort, the probe is not issued again; the creation is issued once iff the channel is absent; the join is issued once iff it is reached; every creation precedes every join; the phase returns nil iff the join is reached and succeeds |
| DeployChannel.CommandsIssued | cli/cmd/deploy_channel.go:106-155 | the probe comes first and is issued once; the creation is issued (once) iff the probe's remote command failed; the join is issued once iff it is reached; every creation precedes every join; the run succeeds iff the join is reached and succeeds |
| DeployChannel.CreateAndJoinStayInPod | cli/cmd/deploy_channel.go:117-155 | the creation and the join run in the given pod and namespace |
| DeployChannel.CommandsStayInPod | cli/cmd/deploy_channel.go:106-155 | every remote command of the commands phase runs in the given pod and namespace |
| DeployChannel.RemoteCommandsInCliPod | cli/cmd/deploy_channel.go:61-155 | a remote command is issued only when the flags are accepted and both pods are ready, and every one runs in the cli pod's name as the wait resolved it, in the run's namespace |
| DeployChannel.ExistingChannelNotCreated | cli/cmd/deploy_channel.go:108-120 | when the probe succeeds, the creation is never issued and the join is issued exactly once |
| DeployChannel.ProbeFailureAborts | cli/cmd/deploy_channel.go:108-115 | a probe failure that is not a remote-command failure returns it wrapped with the resolved cli pod's name, and neither creation nor join is issued |
| DeployChannel.AbsentChannelCreated | cli/cmd/deploy_channel.go:117-135 | a remote probe failure issues the creation exactly once; a failed creation issues no join and returns the stderr-prompted error, which is the pod-wrapped cause when remote and "Failed to create channel" otherwise; a successful one is followed by exactly one join |
| DeployChannel.JoinedExactlyOnce | cli/cmd/deploy_channel.go:137-152 | whether the channel existed or was just created, the join is issued exactly once; the run returns nil iff the join succeeded, and a failed join's error keeps the join's cause |
| DeployChannel.SucceedsOnlyAfterJoin | cli/cmd/deploy_channel.go:61-156 | a run returns nil iff its flags are accepted and either a wait was declined or the join was issued once and succeeded |
| DeployOrderer.JoinPathShape | cli/cmd/deploy_orderer.go:40-48 | a joined path is empty iff every element is empty, and a non-empty last element ends it |
| DeployOrderer.JoinPathAppend | cli/cmd/deploy_orderer.go:40-48 | joining two lists of elements gives the two joined paths with an empty side dropped, and with exactly one slash between two non-empty sides |
| DeployOrderer.JoinPathPair | cli/cmd/deploy_orderer.go:46-48 | two non-empty elements join as `<dir>/<file>` |
| DeployOrderer.JoinPathEmptyHead | cli/cmd/deploy_orderer.go:124 | an empty leading element is dropped: joining `""` and a name gives the name |
| DeployOrderer.TlsDirText | cli/cmd/deploy_orderer.go:40-45 | for a non-empty domain the TLS directory is `.crypto-config.<domain>/ordererOrganizations/<domain>/orderers/<hostname>.<domain>/tls` |
| DeployOrderer.KeyPath | cli/cmd/deploy_orderer.go:46 | the key path is the TLS directory followed by `/server.key` |
| DeployOrderer.CertPath | cli/cmd/deploy_orderer.go:47 | the certificate path is the TLS directory followed by `/server.crt` |
| DeployOrderer.CaPath | cli/cmd/deploy_orderer.go:48 | the CA path is the TLS directory followed by `/ca.crt` |
| DeployOrderer.TlsSecretName | cli/cmd/deploy_orderer.go:49 | the TLS secret's name is `<hostname>.<domain>` followed by `-tls` |
| DeployOrderer.CaSecretName | cli/cmd/deploy_orderer.go:50 | the CA secret's name is `<hostname>.<domain>` followed by `-ca` |
| DeployOrderer.ChartName | cli/cmd/deploy_orderer.go:124 | the chart is `orderer` when no charts path is set, and `<chartsPath>/orderer` otherwise |
| DeployOrderer.ArmValuesPath | cli/cmd/deploy_orderer.go:131 | the arm64 values file is the chart's path followed by `/values.arm64.yaml` |
| DeployOrderer.SecretNamesDiffer | cli/cmd/deploy_orderer.go:49-50 | both secret names begin with `<hostname>.<domain>`, and the TLS and CA secret names differ |
| DeployOrderer.TlsSecret | cli/cmd/deploy_orderer.go:72-86 | the TLS secret has the TLS type and name, data keys exactly `tls.key` and `tls.crt` holding the key and certificate read, the namespace, and exactly the labels cid `orderer.tls.secret`, domain and host |
| DeployOrderer.CaSecret | cli/cmd/deploy_orderer.go:96-109 | the CA secret is Opaque with the CA name, data key exactly `ca.crt` holding the CA certificate read, the namespace, and exactly the labels cid `orderer.ca.secret`, domain and host |
| DeployOrderer.WithDomain | cli/cmd/deploy_orderer.go:138 | after the merge `domain` maps to the configured domain, the keys are the old keys plus `domain`, and every other key keeps its value |
| DeployOrderer.ChartValues | cli/cmd/deploy_orderer.go:120-138 | `domain` always maps to the configured domain; without a loaded arm64 file it is the only key; with one, the keys are the file's keys plus `domain` and every other key keeps the file's value |
| DeployOrderer.Orderer | cli/cmd/deploy_orderer.go:37-162 | a run returns nil iff it reaches the install (all reads and writes succeeded and the values are ready), and its events begin with those of the secret part |
| DeployOrderer.Secrets | cli/cmd/deploy_orderer.go:53-117 | the secret part returns nil iff every read and both writes succeed, and its first event is the key read |
| DeployOrderer.Reads | cli/cmd/deploy_orderer.go:53-69 | the reads return nil iff none fails, and the first is the key read |
| DeployOrderer.Writes | cli/cmd/deploy_orderer.go:71-117 | the writes return nil iff both succeed, and the first event is the TLS secret's write |
| DeployOrderer.InstallWork | cli/cmd/deploy_orderer.go:151-156 | the install closure issues exactly one install of the spec with the configured timeout; it fails iff the install does, and its error keeps the install's cause |
| DeployOrderer.Chart | cli/cmd/deploy_orderer.go:119-161 | the chart part returns nil iff the values are ready (the arm64 file loaded when targeting arm64, and the values encoded), whatever the install does |
| DeployOrderer.DeployOrderer | cli/cmd/deploy_orderer.go:37-162 | the command returns the error of `Orderer` and appends exactly its events |
| DeployOrderer.CreateSecrets | cli/cmd/deploy_orderer.go:53-117 | the reads and the secret writes return the error of `Secrets` and append exactly its events |
| DeployOrderer.ReadTlsMaterial | cli/cmd/deploy_orderer.go:53-69 | the three reads return the error of `Reads`, append exactly its events, and on success hand on exactly the key, certificate and CA read |
| DeployOrderer.StoreSecrets | cli/cmd/deploy_orderer.go:71-117 | given the payloads read, the two writes return the error of `Writes` and append exactly its events |
| DeployOrderer.InstallOrdererChart | cli/cmd/deploy_orderer.go:119-161 | the values preparation and the install return the error of `Chart` and append exactly its events |
| DeployOrderer.ReadsInOrder | cli/cmd/deploy_orderer.go:53-69 | the key, certificate and CA files are read in that order, each only after the previous read succeeded; a failed read returns its error wrapped with the path, and the trace then holds only reads, so no secret is written |
| DeployOrderer.TlsSecretWrittenFirst | cli/cmd/deploy_orderer.go:71-117 | after the reads the TLS secret is written first and the CA secret second; a failed TLS write returns the error naming that secret, and neither the CA secret nor the chart is attempted; a failed CA write likewise returns its error and does not reach the chart |
| DeployOrderer.SecretsEffects | cli/cmd/deploy_orderer.go:53-117 | the secret part only reads files, writes secrets and prints |
| DeployOrderer.ChartEffects | cli/cmd/deploy_orderer.go:119-161 | the chart part loads the arm64 values file first, and only when targeting arm64; it installs the chart only after the values are loaded and encoded, with the encoded values, release `orderer`, readiness waiting and the configured timeout |
| DeployOrderer.ArmValuesOnlyForArm64 | cli/cmd/deploy_orderer.go:130-136 | the arm64 values file is loaded only when targeting arm64, from the orderer chart's directory; once the secrets exist it is always loaded for arm64, and its load error is returned unchanged |
| DeployOrderer.DomainAlwaysWins | cli/cmd/deploy_orderer.go:120-145 | any installed chart spec carries the encoding of the chart values; in those values `domain` is the configured domain whatever the arm64 file held, and every other arm64 key keeps its value |
| DeployOrderer.SecretLineIsNotClosing | cli/cmd/deploy_orderer.go:160 | a "secret created" line is never the closing "successfully deployed" line |
| DeployOrderer.ChartClosingLine | cli/cmd/deploy_orderer.go:151-161 | once the chart part returns nil, its last event is the closing line iff the install succeeded; the closing line occurs iff the part returns nil and the install succeeded |
| DeployOrderer.InstallFailureReturnsNil | cli/cmd/deploy_orderer.go:151-161 | a run returns nil iff it reaches the install, whether or not the install succeeds; once reached, the closing message is the last event iff the install succeeded; the closing message occurs at all iff the install is reached and succeeds |

## Left out

- `util.WaitForPodReady`, `util.ExecShellInPod`, `util.SecretAdapter` and `util.ValuesFromFile` are not part of this model. Their results are inputs: a wait is ready, declined or an error; a command has an error (or none) and a stderr text; a secret write or a values load succeeds or fails.
- `util.WrapWithStderrViewPrompt` is not part of this model. `StderrPrompt` keeps the error and the stderr text. Its message is modelled as the inner error's message.
- The text of `util.ErrRemoteCmdFailed` is not part of this model. `RemoteCmdFailedText` is a stand-in.
- Kubernetes and Helm clients, `ioutil.ReadFile` and `yaml.Marshal` are I/O or library code. Each is an effect with an outcome. `yaml.Marshal` is the function `Env.encode`.
- Cobra flag parsing and viper lookups are configuration. Flags are `Result` values, and the emoji, orderer hostname and install timeout are plain fields. `handleErrors` is not part of this model.
- The package-level `domain`, `namespace`, `chartsPath` and `targetArch` are declared outside the core files. They are taken as their string values.
- The install's `context.WithTimeout` is recorded as the timeout carried by the install event. It is not enforced, because time is not modelled.
- DeployChannel.JoinWords: its own contract states only that the text opens with the first word, because a fuller contract is repeated in every proof that builds a command line. That each later word follows after exactly one space is stated by `DeployChannel.JoinWordsAppend`. The three command lines are stated in full by `JoinCmd`, `FetchCmd` and `CreateCmd`.
- DeployOrderer.JoinPath: `path.Join` cleans its result, and the model does not. Elements that are `.`, `..` or contain slashes are joined as given.
- DeployOrderer.TlsDirText: stated only for a non-empty domain, because with an empty domain `path.Join` drops the empty element and the text differs.
- Console.InteractiveConsole.Tick: a `ReadString` that would block (no newline yet, writer open) is modelled as a tick that reads nothing. In Go the goroutine stays blocked until a newline or end of file arrives.
- Console.InteractiveConsole.Write: an `io.Pipe` write blocks until the reader has consumed it. The model appends to the buffer at once, so the writer never waits for a tick.
- The ticker, the goroutine scheduling and the one-second interval are timing and concurrency. The interleaving is the schedule given to `Run`.
- `fmt.Println` output and `cmd.Printf`/`cmd.Println` lines are recorded as printed lines without their trailing newline.
- `fakeConsoleFile.Fd` returns an OS handle and is not modelled.
- `initLogger`'s logging backend, the creation of `ILogger` and the `wow` spinner's animation are UI setup. The spinner is the trace of its calls, and the prefix map is `Shared.LogPrefixes`.
- Panics are not modelled; `defer ILogger.Stop()` is modelled as the stop that ends every decorated call. One example: a values file that loads as a nil map would make `values["domain"] = domain` panic, and in the model maps are never nil.
- `errors.Wrap` messages are modelled as `msg + ": " + cause`. Stack traces are not modelled.
