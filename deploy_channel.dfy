/** deployChannel (cli/cmd/deploy_channel.go): the setup sequence of a Fabric channel
    for one organisation. After the flags are checked it waits for the peer pod and
    then the cli pod, probes for the channel by fetching its genesis block, creates the
    channel only when the probe says it is absent, and joins the peer to it. The pod
    waits and the three remote commands are effects whose outcomes the cluster decides. */
module DeployChannel {
  import opened Errors
  import opened Shared

  /** The flags as cmd.Flags().GetString returns them. */
  datatype Flags = Flags(org: Result<string>, peer: Result<string>, channel: Result<string>)

  /** The namespace and domain flags and the viper keys the command reads. */
  datatype Config = Config(namespace: string, domain: string, ordererHostname: string, infoEmoji: string)

  /** util.WaitForPodReady: ready, declined by the user (not ok, no error), or an error.
      The pod name is passed by pointer, so a ready wait carries the name it leaves in
      that variable: the pod it resolved from the selector (which may be the name it was
      given). */
  datatype WaitOutcome = Ready(pod: string) | Declined | WaitFailed(err: Error)

  /** util.ExecShellInPod: the stderr stream and the error, if any. */
  datatype ExecOutcome = ExecOutcome(stderr: string, err: Option<Error>)

  /** How the cluster answers each call of one run. */
  datatype Cluster = Cluster(
    peerWait: WaitOutcome,
    cliWait: WaitOutcome,
    fetch: ExecOutcome,
    create: ExecOutcome,
    join: ExecOutcome)

  // ---------------------------------------------------------------------------
  // Names and command lines

  /** The peer pod is named after the peer and the organisation. */
  function PeerPodName(peer: string, org: string): (r: string)
    ensures |peer| <= |r| && r[..|peer|] == peer && r[|peer|..] == "." + org + ".org"
  {
    peer + "." + org + ".org"
  }

  /** The cli pod is named after the peer pod it serves. */
  function CliPodName(peer: string, org: string): (r: string)
    ensures |r| >= 4 && r[..4] == "cli." && r[4..] == PeerPodName(peer, org)
  {
    "cli." + peer + "." + org + ".org"
  }

  /** The readiness selectors, formatted separately from the pod names: each picks its
      pod by the app label. */
  function PeerSelector(peer: string, org: string): (r: string)
    ensures r == "fabnetd/app=" + PeerPodName(peer, org)
  {
    "fabnetd/app=" + peer + "." + org + ".org"
  }

  function CliSelector(peer: string, org: string): (r: string)
    ensures r == "fabnetd/app=" + CliPodName(peer, org)
  {
    "fabnetd/app=cli." + peer + "." + org + ".org"
  }

  /** strings.Join(words, " "): the text opens with the first word. */
  function JoinWords(words: seq<string>): (r: string)
    ensures |words| > 0 ==> |words[0]| <= |r| && r[..|words[0]|] == words[0]
  {
    if |words| == 0 then ""
    else if |words| == 1 then words[0]
    else JoinWords(words[..|words| - 1]) + " " + words[|words| - 1]
  }

  /** strings.Join over two lists of words is the join of each, one space apart. */
  lemma {:induction false} JoinWordsAppend(a: seq<string>, b: seq<string>)
    requires |a| > 0 && |b| > 0
    ensures JoinWords(a + b) == JoinWords(a) + " " + JoinWords(b)
    decreases |b|
  {
    var ab := a + b;
    if |b| == 1 {
      assert ab[..|ab| - 1] == a;
    } else {
      var init := b[..|b| - 1];
      assert ab[..|ab| - 1] == a + init;
      JoinWordsAppend(a, init);
    }
  }

  /** Adding the next word of `words` appends a space and that word. */
  lemma JoinWordsPrefix(words: seq<string>, k: nat)
    requires 1 <= k < |words|
    ensures JoinWords(words[..k + 1]) == JoinWords(words[..k]) + " " + words[k]
  {
    assert words[..k + 1][..k] == words[..k];
  }

  /** `<orderer_hostname>.<domain>:443`: port 443 of the orderer's host in the domain. */
  function OrdererAddress(hostname: string, domain: string): (r: string)
    ensures |r| >= 4 && r[..|r| - 4] == hostname + "." + domain && r[|r| - 4..] == ":443"
  {
    hostname + "." + domain + ":443"
  }

  /** Join the peer to the channel from the channel's block file. */
  function JoinCmd(channel: string): (cmd: string)
    ensures cmd == "peer channel join" + " " + "-b" + " " + (channel + ".block")
  {
    var w := ["peer channel join", "-b", channel + ".block"];
    assert w[..1] == [w[0]];
    JoinWordsPrefix(w, 1);
    JoinWordsPrefix(w, 2);
    assert w[..3] == w;
    JoinWords(w)
  }

  /** The probe: fetch the channel's genesis block from the orderer over TLS with the
      orderer's CA. */
  function FetchCmd(channel: string, orderer: string): (cmd: string)
    ensures cmd == "peer channel fetch config" + " " + (channel + ".block") + " " + "-c" + " " + channel
      + " " + "-o" + " " + orderer + " " + "--tls" + " " + "--cafile" + " " + "$ORDERER_CA"
  {
    var w := ["peer channel fetch config", channel + ".block", "-c", channel, "-o", orderer,
      "--tls", "--cafile", "$ORDERER_CA"];
    assert w[..1] == [w[0]];
    JoinWordsPrefix(w, 1);
    JoinWordsPrefix(w, 2);
    JoinWordsPrefix(w, 3);
    JoinWordsPrefix(w, 4);
    JoinWordsPrefix(w, 5);
    JoinWordsPrefix(w, 6);
    JoinWordsPrefix(w, 7);
    JoinWordsPrefix(w, 8);
    assert w[..9] == w;
    JoinWords(w)
  }

  /** Create the channel from its transaction file, against the orderer over TLS. */
  function CreateCmd(channel: string, orderer: string): (cmd: string)
    ensures cmd == "peer channel create" + " " + "-c" + " " + channel + " " + "-f" + " "
      + ("./channel-artifacts/" + channel + ".tx") + " " + "-o" + " " + orderer + " " + "--tls"
      + " " + "--cafile" + " " + "$ORDERER_CA"
  {
    var w := ["peer channel create", "-c", channel, "-f", "./channel-artifacts/" + channel + ".tx",
      "-o", orderer, "--tls", "--cafile", "$ORDERER_CA"];
    assert w[..1] == [w[0]];
    JoinWordsPrefix(w, 1);
    JoinWordsPrefix(w, 2);
    JoinWordsPrefix(w, 3);
    JoinWordsPrefix(w, 4);
    JoinWordsPrefix(w, 5);
    JoinWordsPrefix(w, 6);
    JoinWordsPrefix(w, 7);
    JoinWordsPrefix(w, 8);
    JoinWordsPrefix(w, 9);
    assert w[..10] == w;
    JoinWords(w)
  }

  /** The three command lines differ (at their fourteenth character), so a trace tells
      them apart. */
  lemma CommandsDiffer(channel: string, orderer: string)
    ensures JoinCmd(channel) != CreateCmd(channel, orderer)
    ensures JoinCmd(channel) != FetchCmd(channel, orderer)
    ensures CreateCmd(channel, orderer) != FetchCmd(channel, orderer)
  {
    assert JoinCmd(channel)[13] == 'j';
    assert CreateCmd(channel, orderer)[13] == 'c';
    assert FetchCmd(channel, orderer)[13] == 'f';
  }

  // ---------------------------------------------------------------------------
  // The error values of the sequence

  function ExecFailed(pod: string, e: Error): Error
  {
    Wrapped("Failed to execute command on '" + pod + "' pod", e)
  }

  /** The closure that creates the channel: a remote failure is wrapped with the pod,
      any other failure is replaced by a fixed message. */
  function CreateWork(pod: string, namespace: string, cmd: string, outcome: ExecOutcome): (r: Work)
    ensures r.effects == [ExecShell(pod, namespace, cmd)]
    ensures r.result.None? <==> outcome.err.None?
    ensures r.result.Some? ==> (r.result.value.IsRemoteCmdFailure() <==> outcome.err.value.IsRemoteCmdFailure())
    ensures r.result.Some? && outcome.err.value.IsRemoteCmdFailure() ==> r.result.value.Cause() == outcome.err.value.Cause()
  {
    Work([ExecShell(pod, namespace, cmd)],
      match outcome.err
      case None => None
      case Some(e) =>
        if e.IsRemoteCmdFailure() then Some(ExecFailed(pod, e))
        else Some(Fundamental("Failed to create channel")))
  }

  /** The closure that joins the peer: a remote failure is wrapped with the pod, any
      other failure is wrapped with "Failed to join channel". */
  function JoinWork(pod: string, namespace: string, cmd: string, outcome: ExecOutcome): (r: Work)
    ensures r.effects == [ExecShell(pod, namespace, cmd)]
    ensures r.result.None? <==> outcome.err.None?
    ensures r.result.Some? ==> r.result.value.Cause() == outcome.err.value.Cause()
  {
    Work([ExecShell(pod, namespace, cmd)],
      match outcome.err
      case None => None
      case Some(e) =>
        if e.IsRemoteCmdFailure() then Some(ExecFailed(pod, e))
        else Some(Wrapped("Failed to join channel", e)))
  }

  function ExistsMessage(cfg: Config, channel: string): string
  {
    cfg.infoEmoji + " " + "Channel '" + channel + "' already created, fetched its genesis block"
  }

  function CreateStart(): string { "Creating channel" }

  function CreateComplete(channel: string): string
  {
    "Channel '" + channel + "' successfully created"
  }

  function JoinStart(org: string, channel: string): string
  {
    "Joinging '" + org + "' organization to '" + channel + "' channel"
  }

  function JoinComplete(org: string, channel: string): string
  {
    "Organization '" + org + "' successfully joined '" + channel + "' channel"
  }

  function DeployedMessage(channel: string): string
  {
    "\U{1F389} Channel '" + channel + "' successfully deployed!"
  }

  // ---------------------------------------------------------------------------
  // The sequence, as a specification

  /** The flags pass the checks: every flag parsed, organisation and channel non-empty. */
  predicate FlagsAccepted(flags: Flags)
  {
    flags.org.Ok? && |flags.org.value| > 0 && flags.peer.Ok?
    && flags.channel.Ok? && |flags.channel.value| > 0
  }

  /** The error the flag checks return, in the order the flags are checked. */
  function FlagError(flags: Flags): (r: Error)
    requires !FlagsAccepted(flags)
    ensures flags.org.Err? ==> r.Cause() == flags.org.error.Cause()
    ensures flags.org.Ok? && flags.org.value == "" ==> r == Fundamental("Required parameter 'org' (organization) is not specified")
    ensures flags.org.Ok? && flags.org.value != "" && flags.peer.Err? ==> r.Cause() == flags.peer.error.Cause()
    ensures flags.org.Ok? && flags.org.value != "" && flags.peer.Ok? && flags.channel.Err? ==>
      r.Cause() == flags.channel.error.Cause()
    ensures flags.org.Ok? && flags.org.value != "" && flags.peer.Ok? && flags.channel.Ok? ==>
      flags.channel.value == "" && r == Fundamental("Required parameter 'channel' is not specified")
  {
    if flags.org.Err? then Wrapped("failed to parse required parameter 'org' (organization)", flags.org.error)
    else if |flags.org.value| == 0 then Fundamental("Required parameter 'org' (organization) is not specified")
    else if flags.peer.Err? then Wrapped("failed to parse 'peer' parameter", flags.peer.error)
    else if flags.channel.Err? then Wrapped("failed to parse required 'channel' parameter", flags.channel.error)
    else Fundamental("Required parameter 'channel' is not specified")
  }

  /** What one run of deployChannel returns and does. */
  function Channel(prefixes: map<ILogLevel, Spinner>, flags: Flags, cfg: Config, cluster: Cluster): (r: Run)
    ensures r.events == [] <==> !FlagsAccepted(flags)
    ensures !FlagsAccepted(flags) ==> r.err == Some(FlagError(flags))
  {
    if !FlagsAccepted(flags) then Run(Some(FlagError(flags)), [])
    else Deploy(prefixes, flags.org.value, flags.peer.value, flags.channel.value, cfg, cluster)
  }

  /** The run once the flags are accepted: the two pod waits, then the commands. */
  function Deploy(prefixes: map<ILogLevel, Spinner>, org: string, peer: string, channel: string,
                  cfg: Config, cluster: Cluster): (r: Run)
    ensures r.events != [] && r.events[0] == WaitPodReady(PeerPodName(peer, org), PeerSelector(peer, org), cfg.namespace)
    ensures !cluster.peerWait.Ready? ==> |r.events| == 1
  {
    var peerWait := [WaitPodReady(PeerPodName(peer, org), PeerSelector(peer, org), cfg.namespace)];
    var cliWait := [WaitPodReady(CliPodName(peer, org), CliSelector(peer, org), cfg.namespace)];
    match cluster.peerWait
    case WaitFailed(e) => Run(Some(e), peerWait)
    case Declined => Run(None, peerWait)
    case Ready(_) =>
      match cluster.cliWait
      case WaitFailed(e) => Run(Some(e), peerWait + cliWait)
      case Declined => Run(None, peerWait + cliWait)
      case Ready(cliPod) =>
        var commands := Commands(prefixes, cliPod, org, channel, cfg, cluster);
        Run(commands.err, peerWait + cliWait + commands.events)
  }

  /** The probe, the creation when the channel is absent, and the join, once both pods
      are ready, all run in `pod`, the cli pod the wait resolved. */
  function Commands(prefixes: map<ILogLevel, Spinner>, pod: string, org: string, channel: string,
                    cfg: Config, cluster: Cluster): (r: Run)
    ensures r.events != []
    ensures r.events[0] == ExecShell(pod, cfg.namespace, FetchCmd(channel, OrdererAddress(cfg.ordererHostname, cfg.domain)))
  {
    var probed := [ExecShell(pod, cfg.namespace, FetchCmd(channel, OrdererAddress(cfg.ordererHostname, cfg.domain)))];
    if ProbeAborts(cluster) then Run(Some(ExecFailed(pod, cluster.fetch.err.value)), probed)
    else
      var rest := CreateAndJoin(prefixes, pod, org, channel, cfg, cluster);
      Run(rest.err, probed + rest.events)
  }

  /** What follows a probe that did not abort: the creation when the channel is absent,
      then the join, then the closing line. */
  function CreateAndJoin(prefixes: map<ILogLevel, Spinner>, pod: string, org: string, channel: string,
                         cfg: Config, cluster: Cluster): (r: Run)
    ensures r.err.None? ==> r.events != [] && r.events[|r.events| - 1] == Println(DeployedMessage(channel))
  {
    var present := cluster.fetch.err.None?;
    var create := CreateWork(pod, cfg.namespace, CreateCmd(channel, OrdererAddress(cfg.ordererHostname, cfg.domain)),
      cluster.create);
    var created :=
      if present then [Println(ExistsMessage(cfg, channel))]
      else Decorated(prefixes, CreateStart(), CreateComplete(channel), create);
    if !present && create.result.Some? then
      Run(Some(StderrPrompt(create.result.value, cluster.create.stderr)), created)
    else
      var join := JoinWork(pod, cfg.namespace, JoinCmd(channel), cluster.join);
      var joined := created + Decorated(prefixes, JoinStart(org, channel), JoinComplete(org, channel), join);
      if join.result.Some? then
        Run(Some(StderrPrompt(join.result.value, cluster.join.stderr)), joined)
      else
        Run(None, joined + [Println(DeployedMessage(channel))])
  }

  // ---------------------------------------------------------------------------
  // The sequence, as the command runs it

  method DeployChannel(s: Session, flags: Flags, cfg: Config, cluster: Cluster) returns (err: Option<Error>)
    modifies s
    ensures err == Channel(s.prefixes, flags, cfg, cluster).err
    ensures s.trace == old(s.trace) + Channel(s.prefixes, flags, cfg, cluster).events
  {
    // Parse flags
    if flags.org.Err? {
      return Some(Wrapped("failed to parse required parameter 'org' (organization)", flags.org.error));
    } else if |flags.org.value| == 0 {
      return Some(Fundamental("Required parameter 'org' (organization) is not specified"));
    }
    var org := flags.org.value;
    if flags.peer.Err? {
      return Some(Wrapped("failed to parse 'peer' parameter", flags.peer.error));
    }
    var peer := flags.peer.value;
    if flags.channel.Err? {
      return Some(Wrapped("failed to parse required 'channel' parameter", flags.channel.error));
    } else if |flags.channel.value| == 0 {
      return Some(Fundamental("Required parameter 'channel' is not specified"));
    }
    var channel := flags.channel.value;

    err := WaitAndRun(s, org, peer, channel, cfg, cluster);
  }

  /** deployChannel once its flags are parsed: wait for the peer pod and the cli pod,
      then run the commands. */
  method WaitAndRun(s: Session, org: string, peer: string, channel: string, cfg: Config, cluster: Cluster)
    returns (err: Option<Error>)
    modifies s
    ensures err == Deploy(s.prefixes, org, peer, channel, cfg, cluster).err
    ensures s.trace == old(s.trace) + Deploy(s.prefixes, org, peer, channel, cfg, cluster).events
  {
    // RunCommands's contract is all this proof needs of the commands phase.
    hide Commands;
    var peerPodName, cliPodName := PeerPodName(peer, org), CliPodName(peer, org);
    ghost var t0 := s.trace;
    var peerWait := [WaitPodReady(peerPodName, PeerSelector(peer, org), cfg.namespace)];
    var cliWait := [WaitPodReady(cliPodName, CliSelector(peer, org), cfg.namespace)];

    // Waiting for the peer pod, then for the cli pod
    ghost var run := Deploy(s.prefixes, org, peer, channel, cfg, cluster);
    s.Record(peerWait);
    match cluster.peerWait {
      case WaitFailed(e) =>
        assert run == Run(Some(e), peerWait);
        return Some(e);
      case Declined =>
        assert run == Run(None, peerWait);
        return None;
      case Ready(resolved) => peerPodName := resolved;
    }
    s.Record(cliWait);
    assert s.trace == t0 + (peerWait + cliWait);
    match cluster.cliWait {
      case WaitFailed(e) =>
        assert run == Run(Some(e), peerWait + cliWait);
        return Some(e);
      case Declined =>
        assert run == Run(None, peerWait + cliWait);
        return None;
      case Ready(resolved) => cliPodName := resolved;
    }

    ghost var commands := Commands(s.prefixes, cliPodName, org, channel, cfg, cluster);
    assert run == Run(commands.err, peerWait + cliWait + commands.events);
    err := RunCommands(s, cliPodName, org, channel, cfg, cluster);
    assert s.trace == t0 + (peerWait + cliWait + commands.events);
  }

  /** The part of deployChannel after both pods are ready, in the cli pod the wait resolved. */
  method RunCommands(s: Session, cliPodName: string, org: string, channel: string, cfg: Config, cluster: Cluster)
    returns (err: Option<Error>)
    modifies s
    ensures err == Commands(s.prefixes, cliPodName, org, channel, cfg, cluster).err
    ensures s.trace == old(s.trace) + Commands(s.prefixes, cliPodName, org, channel, cfg, cluster).events
  {
    // CreateAndJoinChannel's contract is all this proof needs of what follows the probe.
    hide CreateAndJoin;
    var fetchCmd := FetchCmd(channel, OrdererAddress(cfg.ordererHostname, cfg.domain));

    // Probing for the channel by fetching its genesis block
    ghost var t0 := s.trace;
    var probed := [ExecShell(cliPodName, cfg.namespace, fetchCmd)];
    s.Record(probed);
    if cluster.fetch.err.Some? && !cluster.fetch.err.value.IsRemoteCmdFailure() {
      return Some(ExecFailed(cliPodName, cluster.fetch.err.value));
    }
    err := CreateAndJoinChannel(s, cliPodName, org, channel, cfg, cluster);
    ghost var rest := CreateAndJoin(s.prefixes, cliPodName, org, channel, cfg, cluster);
    assert s.trace == t0 + (probed + rest.events);
  }

  /** The creation of an absent channel and the join, after a probe that did not abort;
      `cluster.fetch` tells whether the channel exists. */
  method CreateAndJoinChannel(s: Session, cliPodName: string, org: string, channel: string, cfg: Config,
                              cluster: Cluster)
    returns (err: Option<Error>)
    modifies s
    ensures err == CreateAndJoin(s.prefixes, cliPodName, org, channel, cfg, cluster).err
    ensures s.trace == old(s.trace) + CreateAndJoin(s.prefixes, cliPodName, org, channel, cfg, cluster).events
  {
    // The texts of the messages and command lines play no part in this proof.
    hide ExistsMessage, CreateStart, CreateComplete, JoinStart, JoinComplete, DeployedMessage, CreateCmd, JoinCmd;
    var orderer := OrdererAddress(cfg.ordererHostname, cfg.domain);
    var joinCmd, createCmd := JoinCmd(channel), CreateCmd(channel, orderer);
    var channelExists := cluster.fetch.err.None?;
    if channelExists {
      s.Record([Println(ExistsMessage(cfg, channel))]);
    }

    var stderr: string;

    // Creating the channel in case it was not yet
    if !channelExists {
      stderr := cluster.create.stderr;
      err := DecorateWithInteractiveLog(s, CreateWork(cliPodName, cfg.namespace, createCmd, cluster.create),
        CreateStart(), CreateComplete(channel));
      if err.Some? {
        return Some(StderrPrompt(err.value, stderr));
      }
    }

    // Joining the peer to the channel
    stderr := cluster.join.stderr;
    err := DecorateWithInteractiveLog(s, JoinWork(cliPodName, cfg.namespace, joinCmd, cluster.join),
      JoinStart(org, channel), JoinComplete(org, channel));
    if err.Some? {
      return Some(StderrPrompt(err.value, stderr));
    }

    s.Record([Println(DeployedMessage(channel))]);
    return None;
  }

  // ---------------------------------------------------------------------------
  // Properties of the sequence

  /** The three remote commands, as they appear in a trace. */
  function FetchEvent(pod: string, channel: string, cfg: Config): Event
  {
    ExecShell(pod, cfg.namespace, FetchCmd(channel, OrdererAddress(cfg.ordererHostname, cfg.domain)))
  }

  function CreateEvent(pod: string, channel: string, cfg: Config): Event
  {
    ExecShell(pod, cfg.namespace, CreateCmd(channel, OrdererAddress(cfg.ordererHostname, cfg.domain)))
  }

  function JoinEvent(pod: string, channel: string, cfg: Config): Event
  {
    ExecShell(pod, cfg.namespace, JoinCmd(channel))
  }

  lemma EventsDiffer(pod: string, channel: string, cfg: Config)
    ensures FetchEvent(pod, channel, cfg) != CreateEvent(pod, channel, cfg)
    ensures FetchEvent(pod, channel, cfg) != JoinEvent(pod, channel, cfg)
    ensures CreateEvent(pod, channel, cfg) != JoinEvent(pod, channel, cfg)
  {
    CommandsDiffer(channel, OrdererAddress(cfg.ordererHostname, cfg.domain));
  }

  /** The probe failed for another reason than the remote command's exit status. */
  predicate ProbeAborts(cluster: Cluster)
  {
    cluster.fetch.err.Some? && !cluster.fetch.err.value.IsRemoteCmdFailure()
  }

  /** The probe's remote command failed: the channel is taken to be absent. */
  predicate ChannelAbsent(cluster: Cluster)
  {
    cluster.fetch.err.Some? && cluster.fetch.err.value.IsRemoteCmdFailure()
  }

  /** The run reaches the join: the probe did not abort, and a needed creation succeeded. */
  predicate JoinAttempted(cluster: Cluster)
  {
    !ProbeAborts(cluster) && !(ChannelAbsent(cluster) && cluster.create.err.Some?)
  }

  /** The error a failed creation leaves, before the stderr prompt is added. */
  function CreateError(pod: string, e: Error): Error
  {
    if e.IsRemoteCmdFailure() then ExecFailed(pod, e) else Fundamental("Failed to create channel")
  }

  /** The error a failed join leaves, before the stderr prompt is added. */
  function JoinError(pod: string, e: Error): Error
  {
    if e.IsRemoteCmdFailure() then ExecFailed(pod, e) else Wrapped("Failed to join channel", e)
  }

  /** Counting a decorated remote command: it contains its one command and nothing else
      that is a remote command. */
  lemma CountExecWork(prefixes: map<ILogLevel, Spinner>, start: string, complete: string, fn: Work, x: Event, e: Event)
    requires fn.effects == [x]
    requires e.ExecShell?
    ensures Count(Decorated(prefixes, start, complete, fn), e) == if x == e then 1 else 0
  {
    CountInDecorated(prefixes, start, complete, fn, e);
    CountSingleton(x, e);
  }

  /** After a probe that did not abort: the probe is not repeated; the creation is issued
      exactly when the probe reported the channel absent; the join is issued once when the
      run reaches it and never otherwise, always after the creation; and the run succeeds
      exactly when the join is reached and succeeds. */
  lemma CreateAndJoinIssued(prefixes: map<ILogLevel, Spinner>, pod: string, org: string, channel: string,
                            cfg: Config, cluster: Cluster)
    requires !ProbeAborts(cluster)
    ensures var r := CreateAndJoin(prefixes, pod, org, channel, cfg, cluster);
      && Count(r.events, FetchEvent(pod, channel, cfg)) == 0
      && Count(r.events, CreateEvent(pod, channel, cfg)) == (if ChannelAbsent(cluster) then 1 else 0)
      && Count(r.events, JoinEvent(pod, channel, cfg)) == (if JoinAttempted(cluster) then 1 else 0)
      && Precedes(r.events, CreateEvent(pod, channel, cfg), JoinEvent(pod, channel, cfg))
      && (r.err.None? <==> JoinAttempted(cluster) && cluster.join.err.None?)
  {
    // The texts of the messages and command lines play no part in this proof.
    hide ExistsMessage, CreateStart, CreateComplete, JoinStart, JoinComplete, DeployedMessage, CreateCmd, JoinCmd;
    hide FetchCmd, Decorated;
    var f, c, j := FetchEvent(pod, channel, cfg), CreateEvent(pod, channel, cfg),
      JoinEvent(pod, channel, cfg);
    EventsDiffer(pod, channel, cfg);
    var r := CreateAndJoin(prefixes, pod, org, channel, cfg, cluster);
    var orderer := OrdererAddress(cfg.ordererHostname, cfg.domain);
    var create := CreateWork(pod, cfg.namespace, CreateCmd(channel, orderer), cluster.create);
    var join := JoinWork(pod, cfg.namespace, JoinCmd(channel), cluster.join);
    var dc := Decorated(prefixes, CreateStart(), CreateComplete(channel), create);
    var dj := Decorated(prefixes, JoinStart(org, channel), JoinComplete(org, channel), join);
    var existing := Println(ExistsMessage(cfg, channel));
    var done := Println(DeployedMessage(channel));
    forall e: Event | e.ExecShell?
      ensures Count(dc, e) == if c == e then 1 else 0
      ensures Count(dj, e) == if j == e then 1 else 0
      ensures Count([existing], e) == 0 && Count([done], e) == 0
    {
      CountExecWork(prefixes, CreateStart(), CreateComplete(channel), create, c, e);
      CountExecWork(prefixes, JoinStart(org, channel), JoinComplete(org, channel), join, j, e);
      CountSingleton(existing, e);
      CountSingleton(done, e);
    }
    var created := if ChannelAbsent(cluster) then dc else [existing];
    if !JoinAttempted(cluster) {
      assert r.events == created;
      CountAbsent(created, j);
    } else {
      var rest := if join.result.Some? then dj else dj + [done];
      assert r.events == created + rest;
      forall e: Event | e.ExecShell?
        ensures Count(rest, e) == if j == e then 1 else 0
      {
        if join.result.None? {
          CountConcat(dj, [done], e);
        }
      }
      forall e: Event | e.ExecShell?
        ensures Count(r.events, e) == Count(created, e) + Count(rest, e)
      {
        CountConcat(created, rest, e);
      }
      CountAbsent(created, j);
      CountAbsent(rest, c);
      PrecedesAcross(created, rest, c, j);
    }
  }

  /** Once both pods are ready: the probe is issued once and first; the creation is issued
      exactly when the probe reports the channel absent; the join is issued once when the
      run reaches it and never otherwise, always after the creation; and the run succeeds
      exactly when the join is reached and succeeds. */
  lemma CommandsIssued(prefixes: map<ILogLevel, Spinner>, pod: string, org: string, channel: string,
                       cfg: Config, cluster: Cluster)
    ensures var r := Commands(prefixes, pod, org, channel, cfg, cluster);
      && r.events[0] == FetchEvent(pod, channel, cfg)
      && Count(r.events, FetchEvent(pod, channel, cfg)) == 1
      && Count(r.events, CreateEvent(pod, channel, cfg)) == (if ChannelAbsent(cluster) then 1 else 0)
      && Count(r.events, JoinEvent(pod, channel, cfg)) == (if JoinAttempted(cluster) then 1 else 0)
      && Precedes(r.events, CreateEvent(pod, channel, cfg), JoinEvent(pod, channel, cfg))
      && (r.err.None? <==> JoinAttempted(cluster) && cluster.join.err.None?)
  {
    // CreateAndJoinIssued is all this proof needs of what follows the probe.
    hide CreateAndJoin, FetchCmd, CreateCmd, JoinCmd;
    var f, c, j := FetchEvent(pod, channel, cfg), CreateEvent(pod, channel, cfg),
      JoinEvent(pod, channel, cfg);
    EventsDiffer(pod, channel, cfg);
    var r := Commands(prefixes, pod, org, channel, cfg, cluster);
    CountSingleton(f, f);
    CountSingleton(f, c);
    CountSingleton(f, j);
    if ProbeAborts(cluster) {
      assert r.events == [f];
    } else {
      var rest := CreateAndJoin(prefixes, pod, org, channel, cfg, cluster);
      assert r.events == [f] + rest.events;
      CreateAndJoinIssued(prefixes, pod, org, channel, cfg, cluster);
      CountConcat([f], rest.events, f);
      CountConcat([f], rest.events, c);
      CountConcat([f], rest.events, j);
      PrecedesAfter([f], rest.events, c, j);
    }
  }

  /** The flags are checked before anything happens: a rejected flag (an empty
      organisation or channel among them) returns its error with an empty trace, and an
      accepted run always waits for the peer pod first. */
  lemma FlagsCheckedFirst(prefixes: map<ILogLevel, Spinner>, flags: Flags, cfg: Config, cluster: Cluster)
    ensures var r := Channel(prefixes, flags, cfg, cluster);
      && (r.events == [] <==> !FlagsAccepted(flags))
      && (!FlagsAccepted(flags) ==> r.err == Some(FlagError(flags)))
      && (flags.org.Ok? && flags.org.value == "" ==>
            r.err == Some(Fundamental("Required parameter 'org' (organization) is not specified")))
      && (flags.org.Ok? && flags.org.value != "" && flags.peer.Ok? && flags.channel.Ok? && flags.channel.value == "" ==>
            r.err == Some(Fundamental("Required parameter 'channel' is not specified")))
  {
  }

  /** The peer pod is waited on first and the cli pod second; a wait error is returned as
      it is, and a declined wait ends the run without an error before any remote command. */
  lemma PeerWaitedBeforeCli(prefixes: map<ILogLevel, Spinner>, flags: Flags, cfg: Config, cluster: Cluster)
    requires FlagsAccepted(flags)
    ensures var r := Channel(prefixes, flags, cfg, cluster);
      var org, peer := flags.org.value, flags.peer.value;
      var peerWait := WaitPodReady(PeerPodName(peer, org), PeerSelector(peer, org), cfg.namespace);
      var cliWait := WaitPodReady(CliPodName(peer, org), CliSelector(peer, org), cfg.namespace);
      && r.events[0] == peerWait
      && (cluster.peerWait.Ready? ==> |r.events| >= 2 && r.events[1] == cliWait)
      && (cluster.peerWait.WaitFailed? ==> r == Run(Some(cluster.peerWait.err), [peerWait]))
      && (cluster.peerWait.Declined? ==> r == Run(None, [peerWait]))
      && (cluster.peerWait.Ready? && cluster.cliWait.WaitFailed? ==>
            r == Run(Some(cluster.cliWait.err), [peerWait, cliWait]))
      && (cluster.peerWait.Ready? && cluster.cliWait.Declined? ==> r == Run(None, [peerWait, cliWait]))
  {
  }

  /** Both pods are ready, so the run goes on to the remote commands. */
  predicate PodsReady(cluster: Cluster)
  {
    cluster.peerWait.Ready? && cluster.cliWait.Ready?
  }

  /** The waits issue no remote command: once both pods are ready the run returns what the
      commands return in the cli pod the wait resolved, and contains each remote command as
      often as they do; otherwise it contains none. */
  lemma ChannelRunsCommands(prefixes: map<ILogLevel, Spinner>, flags: Flags, cfg: Config, cluster: Cluster, e: Event)
    requires FlagsAccepted(flags)
    requires e.ExecShell?
    ensures var r := Channel(prefixes, flags, cfg, cluster);
      && (PodsReady(cluster) ==>
            var c := Commands(prefixes, cluster.cliWait.pod, flags.org.value, flags.channel.value, cfg, cluster);
            r.err == c.err && Count(r.events, e) == Count(c.events, e))
      && (!PodsReady(cluster) ==> Count(r.events, e) == 0)
  {
    // The commands phase is counted as a whole, and the pod names play no part in the count.
    hide Commands, PeerPodName, CliPodName, PeerSelector, CliSelector;
    var org, peer, channel := flags.org.value, flags.peer.value, flags.channel.value;
    var peerWait := [WaitPodReady(PeerPodName(peer, org), PeerSelector(peer, org), cfg.namespace)];
    var cliWait := [WaitPodReady(CliPodName(peer, org), CliSelector(peer, org), cfg.namespace)];
    CountSingleton(peerWait[0], e);
    CountSingleton(cliWait[0], e);
    CountConcat(peerWait, cliWait, e);
    if PodsReady(cluster) {
      var c := Commands(prefixes, cluster.cliWait.pod, org, channel, cfg, cluster);
      CountConcat(peerWait + cliWait, c.events, e);
    }
  }

  /** Every remote command of the commands phase runs in the given pod and namespace. */
  lemma CommandsStayInPod(prefixes: map<ILogLevel, Spinner>, pod: string, org: string, channel: string,
                          cfg: Config, cluster: Cluster)
    ensures forall e :: e in Commands(prefixes, pod, org, channel, cfg, cluster).events && e.ExecShell? ==>
      e.pod == pod && e.namespace == cfg.namespace
  {
    // CreateAndJoinStayInPod is all this proof needs of what follows the probe.
    hide CreateAndJoin, FetchCmd;
    CreateAndJoinStayInPod(prefixes, pod, org, channel, cfg, cluster);
  }

  /** Every remote command issued after the probe runs in the given pod and namespace. */
  lemma CreateAndJoinStayInPod(prefixes: map<ILogLevel, Spinner>, pod: string, org: string, channel: string,
                               cfg: Config, cluster: Cluster)
    ensures forall e :: e in CreateAndJoin(prefixes, pod, org, channel, cfg, cluster).events && e.ExecShell? ==>
      e.pod == pod && e.namespace == cfg.namespace
  {
    // The texts of the messages and command lines play no part in this proof.
    hide ExistsMessage, CreateStart, CreateComplete, JoinStart, JoinComplete, DeployedMessage, CreateCmd, JoinCmd;
    hide FetchCmd, Decorated;
    var orderer := OrdererAddress(cfg.ordererHostname, cfg.domain);
    DecoratedEffects(prefixes, CreateStart(), CreateComplete(channel),
      CreateWork(pod, cfg.namespace, CreateCmd(channel, orderer), cluster.create));
    DecoratedEffects(prefixes, JoinStart(org, channel), JoinComplete(org, channel),
      JoinWork(pod, cfg.namespace, JoinCmd(channel), cluster.join));
  }

  /** Remote commands are issued only once both pods are ready, and all of them run in the
      pod the cli wait left in `cliPodName`, in the namespace of the run. */
  lemma RemoteCommandsInCliPod(prefixes: map<ILogLevel, Spinner>, flags: Flags, cfg: Config, cluster: Cluster)
    ensures forall e :: e in Channel(prefixes, flags, cfg, cluster).events && e.ExecShell? ==>
      && FlagsAccepted(flags) && PodsReady(cluster)
      && e.pod == cluster.cliWait.pod && e.namespace == cfg.namespace
  {
    if FlagsAccepted(flags) && PodsReady(cluster) {
      CommandsStayInPod(prefixes, cluster.cliWait.pod, flags.org.value, flags.channel.value, cfg, cluster);
    }
  }

  /** A probe that succeeds marks the channel as existing: the creation is never issued
      and the join is issued exactly once. */
  lemma ExistingChannelNotCreated(prefixes: map<ILogLevel, Spinner>, flags: Flags, cfg: Config, cluster: Cluster)
    requires FlagsAccepted(flags) && PodsReady(cluster)
    requires cluster.fetch.err.None?
    ensures var r := Channel(prefixes, flags, cfg, cluster);
      var pod, channel := cluster.cliWait.pod, flags.channel.value;
      && Count(r.events, CreateEvent(pod, channel, cfg)) == 0
      && Count(r.events, JoinEvent(pod, channel, cfg)) == 1
  {
    var pod, org, channel := cluster.cliWait.pod, flags.org.value, flags.channel.value;
    CommandsIssued(prefixes, pod, org, channel, cfg, cluster);
    ChannelRunsCommands(prefixes, flags, cfg, cluster, CreateEvent(pod, channel, cfg));
    ChannelRunsCommands(prefixes, flags, cfg, cluster, JoinEvent(pod, channel, cfg));
  }

  /** A probe that fails for another reason than the remote exit status aborts the run
      with that error wrapped with the cli pod's name; neither creation nor join is issued. */
  lemma ProbeFailureAborts(prefixes: map<ILogLevel, Spinner>, flags: Flags, cfg: Config, cluster: Cluster)
    requires FlagsAccepted(flags) && PodsReady(cluster)
    requires ProbeAborts(cluster)
    ensures var r := Channel(prefixes, flags, cfg, cluster);
      var pod, channel := cluster.cliWait.pod, flags.channel.value;
      && r.err == Some(Wrapped("Failed to execute command on '" + pod + "' pod", cluster.fetch.err.value))
      && Count(r.events, CreateEvent(pod, channel, cfg)) == 0
      && Count(r.events, JoinEvent(pod, channel, cfg)) == 0
  {
    var pod, org, channel := cluster.cliWait.pod, flags.org.value, flags.channel.value;
    CommandsIssued(prefixes, pod, org, channel, cfg, cluster);
    ChannelRunsCommands(prefixes, flags, cfg, cluster, CreateEvent(pod, channel, cfg));
    ChannelRunsCommands(prefixes, flags, cfg, cluster, JoinEvent(pod, channel, cfg));
  }

  /** A probe whose remote command fails means the channel is absent and it is created,
      once. A failed creation ends the run before the join: a remote failure is wrapped
      with the pod's name, any other becomes the fixed "Failed to create channel". */
  lemma AbsentChannelCreated(prefixes: map<ILogLevel, Spinner>, flags: Flags, cfg: Config, cluster: Cluster)
    requires FlagsAccepted(flags) && PodsReady(cluster)
    requires ChannelAbsent(cluster)
    ensures var r := Channel(prefixes, flags, cfg, cluster);
      var pod, channel := cluster.cliWait.pod, flags.channel.value;
      && Count(r.events, CreateEvent(pod, channel, cfg)) == 1
      && (cluster.create.err.Some? ==>
            && Count(r.events, JoinEvent(pod, channel, cfg)) == 0
            && r.err == Some(StderrPrompt(CreateError(pod, cluster.create.err.value), cluster.create.stderr)))
      && (cluster.create.err.None? ==> Count(r.events, JoinEvent(pod, channel, cfg)) == 1)
  {
    var pod, org, channel := cluster.cliWait.pod, flags.org.value, flags.channel.value;
    CommandsIssued(prefixes, pod, org, channel, cfg, cluster);
    ChannelRunsCommands(prefixes, flags, cfg, cluster, CreateEvent(pod, channel, cfg));
    ChannelRunsCommands(prefixes, flags, cfg, cluster, JoinEvent(pod, channel, cfg));
  }

  /** Whether the channel existed or was just created, the join is issued exactly once;
      the run then succeeds exactly when the join does, and a failed join is reported with
      its cause kept (wrapped with the pod's name when remote, with "Failed to join channel"
      otherwise). */
  lemma JoinedExactlyOnce(prefixes: map<ILogLevel, Spinner>, flags: Flags, cfg: Config, cluster: Cluster)
    requires FlagsAccepted(flags) && PodsReady(cluster)
    requires cluster.fetch.err.None? || (ChannelAbsent(cluster) && cluster.create.err.None?)
    ensures var r := Channel(prefixes, flags, cfg, cluster);
      var pod, channel := cluster.cliWait.pod, flags.channel.value;
      && Count(r.events, JoinEvent(pod, channel, cfg)) == 1
      && (r.err.None? <==> cluster.join.err.None?)
      && (cluster.join.err.Some? ==>
            r.err == Some(StderrPrompt(JoinError(pod, cluster.join.err.value), cluster.join.stderr)))
      && (cluster.join.err.Some? ==> JoinError(pod, cluster.join.err.value).Cause()
                                       == cluster.join.err.value.Cause())
  {
    // The texts of the messages, command lines and pod names play no part in this proof.
    hide ExistsMessage, CreateStart, CreateComplete, JoinStart, JoinComplete, DeployedMessage, CreateCmd, JoinCmd;
    hide FetchCmd, Decorated, PeerPodName, CliPodName, PeerSelector, CliSelector, OrdererAddress;
    var pod, org, channel := cluster.cliWait.pod, flags.org.value, flags.channel.value;
    CommandsIssued(prefixes, pod, org, channel, cfg, cluster);
    ChannelRunsCommands(prefixes, flags, cfg, cluster, JoinEvent(pod, channel, cfg));
  }

  /** A run returns no error only when it stopped at a declined wait, or when it issued
      the join and the join succeeded. */
  lemma SucceedsOnlyAfterJoin(prefixes: map<ILogLevel, Spinner>, flags: Flags, cfg: Config, cluster: Cluster)
    ensures var r := Channel(prefixes, flags, cfg, cluster);
      r.err.None? <==>
        && FlagsAccepted(flags)
        && (|| cluster.peerWait.Declined?
            || (cluster.peerWait.Ready? && cluster.cliWait.Declined?)
            || (PodsReady(cluster) && JoinAttempted(cluster) && cluster.join.err.None?
                && Count(r.events, JoinEvent(cluster.cliWait.pod, flags.channel.value, cfg)) == 1))
  {
    if FlagsAccepted(flags) && PodsReady(cluster) {
      var pod, org, channel := cluster.cliWait.pod, flags.org.value, flags.channel.value;
      CommandsIssued(prefixes, pod, org, channel, cfg, cluster);
      ChannelRunsCommands(prefixes, flags, cfg, cluster, JoinEvent(pod, channel, cfg));
    }
  }
}
