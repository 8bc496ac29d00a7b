/**
 * The swapper's control flow (`__main__`): read the settings and the SSH key,
 * tear down the tunnel a saved client configuration points at, then claim the
 * first free gateway of the pool and bring the tunnel up to it.
 *
 * Each step is a function from the collaborators' answers to its result, the
 * events it causes and the local files it leaves; each method does the step
 * and promises exactly that function.
 */
module Swapper {
  import opened Builtins
  import opened WgConf
  import opened Config
  import opened Ec2
  import opened Environment
  import opened VpnHost
  import opened Aws

  const PROGRAM := "vpn-swapper"
  const NO_OPEN_VPN_MSG := "Unable to find open VPN"
  /** The head of `checked_sp`'s message; the command and the process error that follow it are not modelled. */
  const COMMAND_FAILED_MSG := "Failed to run command"

  /** The command line as `argparse` returns it: three flags defaulting to False, and `--logfile`. */
  datatype Cli = Cli(debug: bool, logLibraries: bool, terminate: bool, logfile: Option<string>)

  function Namespace(cli: Cli): map<string, Value> {
    map["debug" := Flag(cli.debug),
        "log_libraries" := Flag(cli.logLibraries),
        "terminate" := Flag(cli.terminate),
        "logfile" := match cli.logfile case Some(f) => Str(f) case None => Null]
  }

  /** `config[key]` for the `Config.from_args('vpn-swapper', parsed)` of this run. */
  function Setting(env: Env, cli: Cli, key: string): Value {
    Lookup(InitialConf(PROGRAM, DropUnset(Namespace(cli)), env.configFs), key, env.configFs.resolve)
  }

  /** How a run ends when it does not raise. */
  datatype Exit = Terminated | NoOpenVpn | Attached(host: string)

  /** What `open(path)` accepts as a file name here. */
  function PathText(path: Value): Result<string> {
    match path
    case Str(s) => Ok(s)
    case PathOf(p) => Ok(p)
    case _ => Raise(TypeError)
  }

  /** `get_client_config`: the saved configuration, or a blank one when there is no file. */
  function ClientConfSpec(env: Env, files: map<string, Sections>, path: Value): Result<Sections> {
    match PathText(path)
    case Raise(e) => Raise(e)
    case Ok(p) => if p in files then Ok(files[p]) else Ok(BlankConf(env.genkey))
  }

  /** `checked_sp(cmd)`: a non-zero exit becomes the swapper's own error. */
  function CheckedSpec(env: Env, cmd: LocalCmd): Result<()> {
    if env.run(cmd).returncode != 0 then Raise(VpnSwapperException(COMMAND_FAILED_MSG)) else Ok(())
  }

  /** `vpn_connect`: dump the configuration to `path`, then `wg-quick up` it. */
  function TunnelUpSpec(env: Env, files: map<string, Sections>, path: Value, cp: Sections): FileStep<()> {
    match PathText(path)
    case Raise(e) => FileStep(Raise(e), [], files)
    case Ok(p) => FileStep(CheckedSpec(env, QuickUp(p)), [WriteFile(p), Subprocess(QuickUp(p))], files[p := cp])
  }

  /** `vpn_disconnect`: `wg-quick down` the file, then remove it; either failure propagates. */
  function TunnelDownSpec(env: Env, files: map<string, Sections>, path: Value): FileStep<()> {
    match PathText(path)
    case Raise(e) => FileStep(Raise(e), [], files)
    case Ok(p) =>
      if CheckedSpec(env, QuickDown(p)).Raise? then FileStep(CheckedSpec(env, QuickDown(p)), [Subprocess(QuickDown(p))], files)
      else FileStep(if p in files then Ok(()) else Raise(FileNotFoundError),
                    [Subprocess(QuickDown(p)), RemoveFile(p)], files - {p})
  }

  /** What probing one candidate finds: a peer already there, none, or an error that ends the search. */
  datatype Probe = Busy | Free | Abort(error: Error)
  datatype ProbeStep = ProbeStep(probe: Probe, events: seq<Event>)

  /** Open the host and read its server configuration; a failed read (None) has no `has_peers`. */
  function ProbeSpec(env: Env, host: string): ProbeStep {
    var open := ConnectSpec(env, host);
    if open.result.Raise? then ProbeStep(Abort(open.result.error), open.events)
    else
      var read := open.events + [SshExec(host, ShowConf)];
      match ServerConf(env.exec(host, ShowConf), env.parseIni)
      case Raise(e) => ProbeStep(Abort(e), read)
      case Ok(None) => ProbeStep(Abort(AttributeError), read)
      case Ok(Some(cp)) => ProbeStep(if HasPeers(cp) then Busy else Free, read)
  }

  /** Claim a free host: add the client as its peer, then open the firewall; only a ClientError of the latter is let pass. */
  function ClaimSpec(env: Env, host: string, pubkey: Option<string>): Step<()> {
    var sg := SgSpec(env, host, false);
    Step(if Tolerated(sg.result) then Ok(()) else sg.result, [SshExec(host, SetPeer(OptText(pubkey)))] + sg.events)
  }

  /** The probe and the claim of this run, as functions of the host. */
  function Prober(env: Env): string -> ProbeStep {
    host => ProbeSpec(env, host)
  }

  function Claimer(env: Env, pubkey: Option<string>): string -> Step<()> {
    host => ClaimSpec(env, host, pubkey)
  }

  /**
   * `acquire_vpn_host` from candidate `i` on, for any probe and claim: skip
   * busy hosts, stop at the first other one; the result is the index claimed.
   */
  function AcquireFrom(probe: string -> ProbeStep, claim: string -> Step<()>, hosts: seq<string>, i: nat)
    : (s: Step<nat>)
    ensures s.result.Ok? ==> i <= s.result.value < |hosts|
    decreases |hosts| - i
  {
    if i >= |hosts| then Step(Raise(VpnSwapperException(NO_OPEN_VPN_MSG)), [])
    else
      var p := probe(hosts[i]);
      match p.probe
      case Busy =>
        var rest := AcquireFrom(probe, claim, hosts, i + 1);
        Step(rest.result, p.events + rest.events)
      case Abort(e) => Step(Raise(e), p.events)
      case Free =>
        var c := claim(hosts[i]);
        Step(if c.result.Ok? then Ok(i) else Raise(c.result.error), p.events + c.events)
  }

  function AcquireSpec(env: Env, hosts: seq<string>, pubkey: Option<string>): Step<nat> {
    AcquireFrom(Prober(env), Claimer(env, pubkey), hosts, 0)
  }

  /** The events of probing the first `n` candidates. */
  function ScanEvents(probe: string -> ProbeStep, hosts: seq<string>, n: nat): seq<Event>
    requires n <= |hosts|
  {
    if n == 0 then [] else ScanEvents(probe, hosts, n - 1) + probe(hosts[n - 1]).events
  }

  /** Skipping busy candidates costs their probes and nothing else. */
  lemma {:induction false} AcquireSkipsBusy(probe: string -> ProbeStep, claim: string -> Step<()>,
                                            hosts: seq<string>, i: nat)
    requires i <= |hosts|
    requires forall j :: 0 <= j < i ==> probe(hosts[j]).probe == Busy
    ensures AcquireFrom(probe, claim, hosts, 0)
            == Step(AcquireFrom(probe, claim, hosts, i).result,
                    ScanEvents(probe, hosts, i) + AcquireFrom(probe, claim, hosts, i).events)
  {
    if i > 0 {
      AcquireSkipsBusy(probe, claim, hosts, i - 1);
      var p, rest := probe(hosts[i - 1]), AcquireFrom(probe, claim, hosts, i);
      assert AcquireFrom(probe, claim, hosts, i - 1) == Step(rest.result, p.events + rest.events);
      assert ScanEvents(probe, hosts, i - 1) + (p.events + rest.events)
             == ScanEvents(probe, hosts, i) + rest.events;
    }
  }

  /** How far the search has got: the probes of the first `i` candidates, then the search from `i`. */
  predicate ScannedTo(env: Env, hosts: seq<string>, pubkey: Option<string>, i: nat)
    requires i <= |hosts|
  {
    var rest := AcquireFrom(Prober(env), Claimer(env, pubkey), hosts, i);
    AcquireSpec(env, hosts, pubkey) == Step(rest.result, ScanEvents(Prober(env), hosts, i) + rest.events)
  }

  lemma ScannedToStart(env: Env, hosts: seq<string>, pubkey: Option<string>)
    ensures ScannedTo(env, hosts, pubkey, 0)
  {
  }

  /** A busy candidate moves the search on by its probe. */
  lemma ScannedPastBusy(env: Env, hosts: seq<string>, pubkey: Option<string>, i: nat)
    requires i < |hosts| && ScannedTo(env, hosts, pubkey, i)
    requires ProbeSpec(env, hosts[i]).probe == Busy
    ensures ScannedTo(env, hosts, pubkey, i + 1)
    ensures ScanEvents(Prober(env), hosts, i + 1) == ScanEvents(Prober(env), hosts, i) + ProbeSpec(env, hosts[i]).events
  {
    var rest := AcquireFrom(Prober(env), Claimer(env, pubkey), hosts, i + 1);
    Assoc(ScanEvents(Prober(env), hosts, i), ProbeSpec(env, hosts[i]).events, rest.events);
  }

  /** Unfolding the search at a host that is not busy. */
  lemma AcquireAtStop(env: Env, hosts: seq<string>, pubkey: Option<string>, i: nat)
    requires i < |hosts| && !ProbeSpec(env, hosts[i]).probe.Busy?
    ensures var s, p := AcquireFrom(Prober(env), Claimer(env, pubkey), hosts, i), ProbeSpec(env, hosts[i]);
            && (p.probe.Abort? ==> s == Step(Raise(p.probe.error), p.events))
            && (p.probe.Free? ==>
                  var c := ClaimSpec(env, hosts[i], pubkey);
                  s == Step(if c.result.Ok? then Ok(i) else Raise(c.result.error), p.events + c.events))
  {
  }

  /** All candidates busy: the search fails, having probed them all. */
  lemma ScannedToEnd(env: Env, hosts: seq<string>, pubkey: Option<string>)
    requires ScannedTo(env, hosts, pubkey, |hosts|)
    ensures AcquireSpec(env, hosts, pubkey) == Step(Raise(VpnSwapperException(NO_OPEN_VPN_MSG)), ScanEvents(Prober(env), hosts, |hosts|))
  {
    assert ScanEvents(Prober(env), hosts, |hosts|) + [] == ScanEvents(Prober(env), hosts, |hosts|);
  }

  lemma Assoc<T>(a: seq<T>, b: seq<T>, c: seq<T>)
    ensures a + b + c == a + (b + c)
  {
  }

  /** `get_client_config(config)`. */
  method GetClientConfig(world: World, path: Value) returns (r: Result<WgConf>)
    ensures r.Ok? <==> ClientConfSpec(world.env, world.files, path).Ok?
    ensures r.Ok? ==> ClientConfSpec(world.env, world.files, path).value == r.value.cp
    ensures r.Raise? ==> ClientConfSpec(world.env, world.files, path).error == r.error
    ensures r.Ok? ==> fresh(r.value)
  {
    var p := PathText(path);
    if p.Raise? {
      return Raise(p.error);
    }
    var wg: WgConf;
    if p.value in world.files {
      wg := new WgConf(world.files[p.value]);
    } else {
      wg := new WgConf.Blank(world.env.genkey);
    }
    r := Ok(wg);
  }

  /** `checked_sp(cmd)`. */
  method CheckedRun(world: World, cmd: LocalCmd) returns (r: Result<()>)
    modifies world
    ensures world.trace == old(world.trace) + [Subprocess(cmd)] && world.files == old(world.files)
    ensures r == CheckedSpec(world.env, cmd)
  {
    var p := world.Run(cmd);
    r := if p.returncode != 0 then Raise(VpnSwapperException(COMMAND_FAILED_MSG)) else Ok(());
  }

  /** `vpn_connect(config, wg)`. */
  method VpnConnect(world: World, path: Value, wg: WgConf) returns (r: Result<()>)
    modifies world
    ensures var s := TunnelUpSpec(world.env, old(world.files), path, wg.cp);
            world.trace == old(world.trace) + s.events && world.files == s.files && r == s.result
  {
    var p := PathText(path);
    if p.Raise? {
      return Raise(p.error);
    }
    world.Write(p.value, wg.cp);
    r := CheckedRun(world, QuickUp(p.value));
  }

  /** `vpn_disconnect(config)`. */
  method VpnDisconnect(world: World, path: Value) returns (r: Result<()>)
    modifies world
    ensures var s := TunnelDownSpec(world.env, old(world.files), path);
            world.trace == old(world.trace) + s.events && world.files == s.files && r == s.result
  {
    var p := PathText(path);
    if p.Raise? {
      return Raise(p.error);
    }
    r := CheckedRun(world, QuickDown(p.value));
    if r.Raise? {
      return;
    }
    var o := world.Remove(p.value);
    r := OutcomeOf(o);
  }

  /** One turn of the search loop up to the `has_peers` test: open the host, read its configuration. */
  method ProbeHost(world: World, host: string) returns (vpn: VPNHost, probe: Probe)
    modifies world
    ensures vpn.host == host && vpn.world == world
    ensures world.trace == old(world.trace) + ProbeSpec(world.env, host).events && world.files == old(world.files)
    ensures probe == ProbeSpec(world.env, host).probe
  {
    var reached;
    vpn, reached := Open(world, host);
    if reached.Raise? {
      return vpn, Abort(reached.error);
    }
    var conf := vpn.GetServerConf();
    if conf.Raise? {
      return vpn, Abort(conf.error);
    }
    if conf.value.None? {
      return vpn, Abort(AttributeError);
    }
    probe := if HasPeers(conf.value.value) then Busy else Free;
  }

  /** The rest of the turn for a free host: `take`, then open the firewall. */
  method ClaimHost(vpn: VPNHost, pubkey: Option<string>, aws: AwsClient) returns (r: Result<()>)
    requires aws.world == vpn.world
    modifies vpn.world
    ensures vpn.world.trace == old(vpn.world.trace) + ClaimSpec(vpn.world.env, vpn.host, pubkey).events
    ensures vpn.world.files == old(vpn.world.files)
    ensures r == ClaimSpec(vpn.world.env, vpn.host, pubkey).result
  {
    vpn.Take(pubkey);
    r := aws.ModifySecurityGroupRule(vpn.host, false);
    if Tolerated(r) {
      r := Ok(());
    }
  }

  /**
   * One turn of the search loop, with the first `i` candidates found busy:
   * probe candidate `i`; either it is busy too and the search moves on, or the
   * search ends here as `acquire_vpn_host` does. When the search moves on,
   * `r` carries no meaning: the caller reads it only once `stop` holds.
   */
  method Visit(world: World, hosts: seq<string>, pubkey: Option<string>, aws: AwsClient, i: nat, ghost start: seq<Event>)
    returns (stop: bool, r: Result<VPNHost>)
    requires aws.world == world && i < |hosts|
    requires ScannedTo(world.env, hosts, pubkey, i)
    requires world.trace == start + ScanEvents(Prober(world.env), hosts, i)
    modifies world
    ensures world.files == old(world.files)
    ensures !stop ==> (ScannedTo(world.env, hosts, pubkey, i + 1)
                       && world.trace == start + ScanEvents(Prober(world.env), hosts, i + 1))
    ensures stop ==> (var s := AcquireSpec(world.env, hosts, pubkey);
                      && world.trace == start + s.events
                      && (s.result.Ok? ==> r.Ok? && r.value.host == hosts[s.result.value] && r.value.world == world)
                      && (s.result.Raise? ==> r == Raise(s.result.error)))
  {
    ghost var scan := ScanEvents(Prober(world.env), hosts, i);
    var vpn, p := ProbeHost(world, hosts[i]);
    ghost var probed := ProbeSpec(world.env, hosts[i]).events;
    if p.Busy? {
      ScannedPastBusy(world.env, hosts, pubkey, i);
      Assoc(start, scan, probed);
      return false, Raise(IndexError);
    }
    AcquireAtStop(world.env, hosts, pubkey, i);
    if p.Abort? {
      Assoc(start, scan, probed);
      return true, Raise(p.error);
    }
    var c := ClaimHost(vpn, pubkey, aws);
    ghost var claimed := ClaimSpec(world.env, hosts[i], pubkey).events;
    Assoc(start + scan, probed, claimed);
    Assoc(start, scan, probed + claimed);
    return true, if c.Ok? then Ok(vpn) else Raise(c.error);
  }

  /** `acquire_vpn_host(hosts, ssh_key, client_pubkey, aws)`: the handle on the host claimed. */
  method Acquire(world: World, hosts: seq<string>, pubkey: Option<string>, aws: AwsClient) returns (r: Result<VPNHost>)
    requires aws.world == world
    modifies world
    ensures var s := AcquireSpec(world.env, hosts, pubkey);
            && world.trace == old(world.trace) + s.events && world.files == old(world.files)
            && (s.result.Ok? ==> r.Ok? && r.value.host == hosts[s.result.value] && r.value.world == world)
            && (s.result.Raise? ==> r == Raise(s.result.error))
  {
    var i := 0;
    ScannedToStart(world.env, hosts, pubkey);
    while i < |hosts|
      invariant i <= |hosts| && ScannedTo(world.env, hosts, pubkey, i)
      invariant world.trace == old(world.trace) + ScanEvents(Prober(world.env), hosts, i)
      invariant world.files == old(world.files)
    {
      var stop;
      stop, r := Visit(world, hosts, pubkey, aws, i, old(world.trace));
      if stop {
        return;
      }
      i := i + 1;
    }
    ScannedToEnd(world.env, hosts, pubkey);
    r := Raise(VpnSwapperException(NO_OPEN_VPN_MSG));
  }

  /**
   * Lines 158-173 of `main`, for the host the saved peer's endpoint names: open
   * it, read its instance id, close the firewall (a ClientError let pass), take
   * the tunnel down and remove its file, and terminate the instance.
   */
  function TeardownSpec(env: Env, files: map<string, Sections>, host: string, path: Value): FileStep<()> {
    var open := ConnectSpec(env, host);
    if open.result.Raise? then FileStep(Raise(open.result.error), open.events, files)
    else
      var rest := DismantleSpec(env, files, host, path);
      FileStep(rest.result, open.events + rest.events, rest.files)
  }

  /** Lines 161-173 of `main`, once the old host is reached. */
  function DismantleSpec(env: Env, files: map<string, Sections>, host: string, path: Value): FileStep<()> {
    var id := InstanceIdOf(env.exec(host, InstanceId));
    var sg := SgSpec(env, host, true);
    var closed := [SshExec(host, InstanceId)] + sg.events;
    if !Tolerated(sg.result) then FileStep(Raise(sg.result.error), closed, files)
    else
      var rest := DecommissionSpec(env, files, id, path);
      FileStep(rest.result, closed + rest.events, rest.files)
  }

  /** Lines 169-172 of `main`: take the tunnel down, then terminate the instance. */
  function DecommissionSpec(env: Env, files: map<string, Sections>, id: Option<string>, path: Value): FileStep<()> {
    var down := TunnelDownSpec(env, files, path);
    if down.result.Raise? then down
    else FileStep(OutcomeOf(env.terminate(id)), down.events + [TerminateInstances(id)], down.files)
  }

  /**
   * Lines 187-189 of `main`, once `host` is claimed: point the client
   * configuration at the host's server key and bring the tunnel up.
   */
  function ConnectToSpec(env: Env, files: map<string, Sections>, cp: Sections, host: string, path: Value, port: Value)
    : FileStep<Exit>
  {
    var rest := AdoptSpec(env, files, cp, host, ServerConf(env.exec(host, ShowConf), env.parseIni), path, port);
    FileStep(rest.result, [SshExec(host, ShowConf)] + rest.events, rest.files)
  }

  /** Lines 187-189 of `main` once the server configuration is read: a failed read (None) has no `get_pubkey`. */
  function AdoptSpec(env: Env, files: map<string, Sections>, cp: Sections, host: string,
                     read: Result<Option<Sections>>, path: Value, port: Value): FileStep<Exit>
  {
    match read
    case Raise(e) => FileStep(Raise(e), [], files)
    case Ok(None) => FileStep(Raise(AttributeError), [], files)
    case Ok(Some(server)) => InstallSpec(env, files, cp, host, server, path, port)
  }

  /** `set_server` with the server's public key, then `vpn_connect`. */
  function InstallSpec(env: Env, files: map<string, Sections>, cp: Sections, host: string, server: Sections,
                       path: Value, port: Value): FileStep<Exit>
  {
    match GetPubkey(server, env.pubkey)
    case Raise(e) => FileStep(Raise(e), [], files)
    case Ok(None) => FileStep(Raise(TypeError), [], files)
    case Ok(Some(key)) =>
      var up := TunnelUpSpec(env, files, path, WithServer(cp, host, port, Some(key)));
      FileStep(if up.result.Ok? then Ok(Attached(host)) else Raise(up.result.error), up.events, up.files)
  }

  /**
   * Lines 181-189 of `main`, for the listed pool: claim a host with the client's
   * public key (any failure there ends the run quietly), then connect to it.
   */
  function ClaimAndConnectSpec(env: Env, files: map<string, Sections>, cp: Sections, hosts: seq<string>,
                               path: Value, port: Value): FileStep<Exit>
  {
    match GetPubkey(cp, env.pubkey)
    case Raise(_) => FileStep(Ok(NoOpenVpn), [], files)
    case Ok(pubkey) =>
      var acq := AcquireSpec(env, hosts, pubkey);
      if acq.result.Raise? then FileStep(Ok(NoOpenVpn), acq.events, files)
      else
        var up := ConnectToSpec(env, files, cp, hosts[acq.result.value], path, port);
        FileStep(up.result, acq.events + up.events, up.files)
  }

  /** Lines 178-189 of `main`: list the pool, then claim and connect. */
  function AttachSpec(env: Env, files: map<string, Sections>, cp: Sections, path: Value, port: Value): FileStep<Exit> {
    var listed := [DescribeInstances(POOL_TAG, RUNNING)];
    match HostsSpec(env)
    case Raise(e) => FileStep(Raise(e), listed, files)
    case Ok(hosts) =>
      var c := ClaimAndConnectSpec(env, files, cp, hosts, path, port);
      FileStep(c.result, listed + c.events, c.files)
  }

  /** Lines 156-173 of `main`: tear down the tunnel the saved peer points at, if there is one. */
  function TakeDownSpec(env: Env, files: map<string, Sections>, cp: Sections, path: Value): FileStep<()> {
    if !HasPeers(cp) then FileStep(Ok(()), [], files)
    else
      match GetEndpoint(cp)
      case Raise(e) => FileStep(Raise(e), [], files)
      case Ok((host, _)) => TeardownSpec(env, files, host, path)
  }

  /** Lines 156-189 of `main`, once the client configuration is read. */
  function SwapConfSpec(env: Env, files: map<string, Sections>, cp: Sections, path: Value, port: Value, terminate: bool)
    : FileStep<Exit>
  {
    var down := TakeDownSpec(env, files, cp, path);
    if down.result.Raise? then FileStep(Raise(down.result.error), down.events, down.files)
    else if terminate then FileStep(Ok(Terminated), down.events, down.files)
    else
      var up := AttachSpec(env, down.files, cp, path, port);
      FileStep(up.result, down.events + up.events, up.files)
  }

  /**
   * The client configuration `wg` holds after line 187, for the fetched server
   * configuration: `set_server` is reached exactly when the server's key could
   * be read, and it overwrites the peer even when the key is None.
   */
  function InstallClient(env: Env, cp: Sections, host: string, server: Sections, port: Value): Sections {
    match GetPubkey(server, env.pubkey)
    case Ok(key) => WithServer(cp, host, port, key)
    case Raise(_) => cp
  }

  /** The client configuration after lines 187-189: unchanged unless the server's configuration was read. */
  function ConnectToClient(env: Env, cp: Sections, host: string, port: Value): Sections {
    AdoptClient(env, cp, host, ServerConf(env.exec(host, ShowConf), env.parseIni), port)
  }

  function AdoptClient(env: Env, cp: Sections, host: string, read: Result<Option<Sections>>, port: Value): Sections {
    match read
    case Ok(Some(server)) => InstallClient(env, cp, host, server, port)
    case _ => cp
  }

  /** The client configuration after lines 181-189: unchanged unless a host was claimed. */
  function ClaimAndConnectClient(env: Env, cp: Sections, hosts: seq<string>, port: Value): Sections {
    match GetPubkey(cp, env.pubkey)
    case Raise(_) => cp
    case Ok(pubkey) =>
      var acq := AcquireSpec(env, hosts, pubkey);
      if acq.result.Raise? then cp else ConnectToClient(env, cp, hosts[acq.result.value], port)
  }

  /** The client configuration after lines 178-189. */
  function AttachClient(env: Env, cp: Sections, port: Value): Sections {
    match HostsSpec(env)
    case Raise(_) => cp
    case Ok(hosts) => ClaimAndConnectClient(env, cp, hosts, port)
  }

  /** The client configuration after lines 156-189: the teardown never changes it. */
  function SwapConfClient(env: Env, files: map<string, Sections>, cp: Sections, path: Value, port: Value, terminate: bool)
    : Sections
  {
    if TakeDownSpec(env, files, cp, path).result.Raise? || terminate then cp
    else AttachClient(env, cp, port)
  }

  /** `main(argv)` on the Linux branch, once the settings are read. */
  function RunSpec(env: Env, files: map<string, Sections>, keyPath: Value, path: Value, port: Value, terminate: bool)
    : FileStep<Exit>
  {
    var fetched := [GetParameter(keyPath)];
    match PrivkeySpec(env, keyPath)
    case Raise(e) => FileStep(Raise(e), fetched, files)
    case Ok(key) =>
      if !env.rsaKey(key) then FileStep(Raise(SshError), fetched, files)
      else
        match ClientConfSpec(env, files, path)
        case Raise(e) => FileStep(Raise(e), fetched, files)
        case Ok(cp) =>
          var rest := SwapConfSpec(env, files, cp, path, port, terminate);
          FileStep(rest.result, fetched + rest.events, rest.files)
  }

  /** `main(argv)` on the Linux branch, for a command line and the files there are before the run. */
  function SwapSpec(env: Env, cli: Cli, files: map<string, Sections>): FileStep<Exit> {
    RunSpec(env, files, Setting(env, cli, "ssh_key_path"), Setting(env, cli, "wg_conf_file"),
            Setting(env, cli, "wg_port"), Truthy(Setting(env, cli, "terminate")))
  }

  /** The teardown block of `main`, after `get_endpoint`. */
  method Teardown(world: World, aws: AwsClient, host: string, path: Value) returns (r: Result<()>)
    requires aws.world == world
    modifies world
    ensures var s := TeardownSpec(world.env, old(world.files), host, path);
            world.trace == old(world.trace) + s.events && world.files == s.files && r == s.result
  {
    var current, reached := Open(world, host);
    if reached.Raise? {
      return Raise(reached.error);
    }
    ghost var mid := world.trace;
    r := Dismantle(current, aws, path);
    Assoc(old(world.trace), mid[|old(world.trace)|..], world.trace[|mid|..]);
  }

  /** Lines 161-173 of `main`, on the reached host. */
  method Dismantle(current: VPNHost, aws: AwsClient, path: Value) returns (r: Result<()>)
    requires aws.world == current.world
    modifies current.world
    ensures var s := DismantleSpec(current.world.env, old(current.world.files), current.host, path);
            && current.world.trace == old(current.world.trace) + s.events
            && current.world.files == s.files && r == s.result
  {
    var id := current.GetEc2InstanceId();
    var sg := aws.ModifySecurityGroupRule(current.host, true);
    if !Tolerated(sg) {
      return Raise(sg.error);
    }
    ghost var mid := current.world.trace;
    r := Decommission(current.world, aws, id, path);
    Assoc(old(current.world.trace), mid[|old(current.world.trace)|..], current.world.trace[|mid|..]);
  }

  /** Lines 169-172 of `main`. */
  method Decommission(world: World, aws: AwsClient, id: Option<string>, path: Value) returns (r: Result<()>)
    requires aws.world == world
    modifies world
    ensures var s := DecommissionSpec(world.env, old(world.files), id, path);
            world.trace == old(world.trace) + s.events && world.files == s.files && r == s.result
  {
    r := VpnDisconnect(world, path);
    if r.Raise? {
      return;
    }
    var o := aws.TerminateHost(id);
    r := OutcomeOf(o);
  }

  /** Lines 187-189 of `main`. */
  method ConnectTo(vpn: VPNHost, wg: WgConf, path: Value, port: Value) returns (r: Result<Exit>)
    modifies vpn.world, wg
    ensures var s := ConnectToSpec(vpn.world.env, old(vpn.world.files), old(wg.cp), vpn.host, path, port);
            vpn.world.trace == old(vpn.world.trace) + s.events && vpn.world.files == s.files && r == s.result
    ensures wg.cp == ConnectToClient(vpn.world.env, old(wg.cp), vpn.host, port)
  {
    var server := vpn.GetServerConf();
    ghost var mid := vpn.world.trace;
    r := Adopt(vpn.world, wg, vpn.host, server, path, port);
    Assoc(old(vpn.world.trace), [SshExec(vpn.host, ShowConf)], vpn.world.trace[|mid|..]);
  }

  /** Lines 187-189 of `main`, given what `get_server_conf` returned on the claimed host. */
  method Adopt(world: World, wg: WgConf, host: string, read: Result<Option<Sections>>, path: Value, port: Value)
    returns (r: Result<Exit>)
    modifies world, wg
    ensures var s := AdoptSpec(world.env, old(world.files), old(wg.cp), host, read, path, port);
            world.trace == old(world.trace) + s.events && world.files == s.files && r == s.result
    ensures wg.cp == AdoptClient(world.env, old(wg.cp), host, read, port)
  {
    match read
    case Raise(e) =>
      r := Raise(e);
    case Ok(None) =>
      r := Raise(AttributeError);
    case Ok(Some(server)) =>
      r := Install(world, wg, host, server, path, port);
  }

  /** Line 187 of `main` from the fetched server configuration on, then line 189. */
  method Install(world: World, wg: WgConf, host: string, server: Sections, path: Value, port: Value)
    returns (r: Result<Exit>)
    modifies world, wg
    ensures var s := InstallSpec(world.env, old(world.files), old(wg.cp), host, server, path, port);
            world.trace == old(world.trace) + s.events && world.files == s.files && r == s.result
    ensures wg.cp == InstallClient(world.env, old(wg.cp), host, server, port)
  {
    var key := GetPubkey(server, world.env.pubkey);
    if key.Raise? {
      return Raise(key.error);
    }
    var attached := wg.SetServer(host, port, key.value);
    if attached.Fail? {
      return Raise(attached.error);
    }
    var up := VpnConnect(world, path, wg);
    r := if up.Ok? then Ok(Attached(host)) else Raise(up.error);
  }

  /** Lines 181-189 of `main`. */
  method ClaimAndConnect(world: World, aws: AwsClient, wg: WgConf, hosts: seq<string>, path: Value, port: Value)
    returns (r: Result<Exit>)
    requires aws.world == world
    modifies world, wg
    ensures var s := ClaimAndConnectSpec(world.env, old(world.files), old(wg.cp), hosts, path, port);
            world.trace == old(world.trace) + s.events && world.files == s.files && r == s.result
    ensures wg.cp == ClaimAndConnectClient(world.env, old(wg.cp), hosts, port)
  {
    var pubkey := GetPubkey(wg.cp, world.env.pubkey);
    if pubkey.Raise? {
      return Ok(NoOpenVpn);
    }
    var acquired := Acquire(world, hosts, pubkey.value, aws);
    if acquired.Raise? {
      return Ok(NoOpenVpn);
    }
    ghost var mid := world.trace;
    r := ConnectTo(acquired.value, wg, path, port);
    Assoc(old(world.trace), AcquireSpec(world.env, hosts, pubkey.value).events, world.trace[|mid|..]);
  }

  /** Lines 178-189 of `main`. */
  method Attach(world: World, aws: AwsClient, wg: WgConf, path: Value, port: Value) returns (r: Result<Exit>)
    requires aws.world == world
    modifies world, wg
    ensures var s := AttachSpec(world.env, old(world.files), old(wg.cp), path, port);
            world.trace == old(world.trace) + s.events && world.files == s.files && r == s.result
    ensures wg.cp == AttachClient(world.env, old(wg.cp), port)
  {
    var hosts := aws.GetVpnHosts();
    if hosts.Raise? {
      return Raise(hosts.error);
    }
    ghost var mid := world.trace;
    r := ClaimAndConnect(world, aws, wg, hosts.value, path, port);
    Assoc(old(world.trace), [DescribeInstances(POOL_TAG, RUNNING)], world.trace[|mid|..]);
  }

  /** Lines 156-173 of `main`. */
  method TakeDown(world: World, aws: AwsClient, cp: Sections, path: Value) returns (r: Result<()>)
    requires aws.world == world
    modifies world
    ensures var s := TakeDownSpec(world.env, old(world.files), cp, path);
            world.trace == old(world.trace) + s.events && world.files == s.files && r == s.result
  {
    if !HasPeers(cp) {
      return Ok(());
    }
    var endpoint := GetEndpoint(cp);
    if endpoint.Raise? {
      return Raise(endpoint.error);
    }
    r := Teardown(world, aws, endpoint.value.0, path);
  }

  /** Lines 156-189 of `main`. */
  method SwapConf(world: World, aws: AwsClient, wg: WgConf, path: Value, port: Value, terminate: bool)
    returns (r: Result<Exit>)
    requires aws.world == world
    modifies world, wg
    ensures var s := SwapConfSpec(world.env, old(world.files), old(wg.cp), path, port, terminate);
            world.trace == old(world.trace) + s.events && world.files == s.files && r == s.result
    ensures wg.cp == SwapConfClient(world.env, old(world.files), old(wg.cp), path, port, terminate)
  {
    var down := TakeDown(world, aws, wg.cp, path);
    if down.Raise? {
      return Raise(down.error);
    }
    if terminate {
      return Ok(Terminated);
    }
    ghost var mid := world.trace;
    r := Attach(world, aws, wg, path, port);
    Assoc(old(world.trace), mid[|old(world.trace)|..], world.trace[|mid|..]);
  }

  /** `main(argv)` once the settings are read. */
  method Run(world: World, keyPath: Value, path: Value, port: Value, terminate: bool) returns (r: Result<Exit>)
    modifies world
    ensures var s := RunSpec(world.env, old(world.files), keyPath, path, port, terminate);
            world.trace == old(world.trace) + s.events && world.files == s.files && r == s.result
  {
    var aws := new AwsClient(world);
    var key := aws.GetVpnPrivkey(keyPath);
    if key.Raise? {
      return Raise(key.error);
    }
    if !world.env.rsaKey(key.value) {
      return Raise(SshError);
    }
    var client := GetClientConfig(world, path);
    if client.Raise? {
      return Raise(client.error);
    }
    ghost var mid := world.trace;
    r := SwapConf(world, aws, client.value, path, port, terminate);
    Assoc(old(world.trace), [GetParameter(keyPath)], world.trace[|mid|..]);
  }

  /** `main(argv)`: read the settings, then run. */
  method Swap(world: World, cli: Cli) returns (r: Result<Exit>)
    modifies world
    ensures var s := SwapSpec(world.env, cli, old(world.files));
            world.trace == old(world.trace) + s.events && world.files == s.files && r == s.result
  {
    var config := Config.FromArgs(PROGRAM, Namespace(cli), world.env.configFs);
    r := Run(world, Lookup(config.conf, "ssh_key_path", config.resolve), Lookup(config.conf, "wg_conf_file", config.resolve),
             Lookup(config.conf, "wg_port", config.resolve), Truthy(Lookup(config.conf, "terminate", config.resolve)));
  }
}
