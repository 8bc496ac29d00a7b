# vpn-swapper, modelled in Dafny

vpn-swapper moves a workstation's WireGuard tunnel from one gateway of an AWS
pool to another. A run reads its settings (`Config`) and the pool's SSH key from
the parameter store. If the saved client configuration (`WgConf`) has a peer, it
tears that gateway down: it reads the gateway's instance id, revokes the
firewall rule for it, runs `wg-quick down`, removes the file and terminates the
instance. Unless the run is in terminate mode, it then lists the pool, claims
the first gateway whose server configuration has no peer (`take`, then open the
firewall), points the client configuration at that gateway and brings the
tunnel up.

The model has nine modules in eight files:

- `Builtins` (builtins.dfy): the parts of Python the program relies on. These are
  its exceptions, the dynamically typed configuration values, `str()`,
  `str.strip`, `str.split`, `str.lower`, `str(int)` and `int(str)`.
- `WgConf` (wg_conf.dfy): `WgConf` as a class over a map of sections. The
  pure queries are functions, and `set_server` is a method that overwrites the
  `Peer` section.
- `Config` (config.dfy): the file search as a loop, the three-way merge, `from_args`,
  `__getitem__`, and `__setitem__` as written and as intended.
- `Ec2` and `Aws` (aws.dfy): the reservation flattening and the SSH ingress rule,
  plus the `AwsClient` class, whose four calls record events.
- `Environment` (environment.dfy): `Env` holds the answers of every collaborator:
  SSH, the prompt, subprocesses, the AWS APIs, ConfigParser and the file system.
  `World` records each side effect, in order, as an event in `trace`, and holds
  the dumped configurations in `files`. The local `wg genkey` and `wg pubkey` are
  answers of `Env`, not traced events.
- `VpnHost` (vpn_host.dfy): `VPNHost` with its connect and retry sequence and its
  three remote commands.
- `Swapper` (swapper.dfy): the control flow of `__main__`. Each step is a pure
  function (`…Spec`) that gives its result, the events it causes and the files
  it leaves. Each method does the step and promises exactly that function. The
  search `acquire_vpn_host` is a `while` loop whose invariant ties the trace so
  far to the probes of the candidates already skipped.
- `SwapperFacts` (swapper_facts.dfy): what the flow promises, proved of the step
  functions. The properties covered:
  - the search is first-fit;
  - the winner is the only host taken;
  - teardown runs in a fixed order and stops at the first failure;
  - terminate mode never reaches the pool;
  - a failed search leaves the client untouched;
  - for a numeric `wg_port` and a host without ':', a successful run leaves a configuration that the next run tears down again.

## Model

| member | source | states |
|---|---|---|
| `WgConf.OptionKeys` | vpn_swapper/wg_conf.py:13-15 | ConfigParser stores the keys `AllowedIPs`, `PublicKey`, `Endpoint`, `PrivateKey`, `Address` and `DNS` lower-cased, so a lookup by the mixed-case name finds them |
| `WgConf.GetEndpoint` | vpn_swapper/wg_conf.py:32-36 | without a `Peer` section it raises "Cannot get endpoint of configuration with no peers"; a result means the peer has an `Endpoint` option |
| `WgConf.GetPubkey` | vpn_swapper/wg_conf.py:19-27 | it raises exactly when the interface has no private key; it is None exactly when `wg pubkey` wrote to stderr; otherwise it is exactly the command's stdout with its surrounding whitespace stripped, so it has none left and is no longer than what was printed |
| `WgConf.SetServerAttaches` | vpn_swapper/wg_conf.py:12-15 | after `set_server(h, p, k)` there is a peer, and it is exactly {allowedips: 0.0.0.0/0, publickey: k, endpoint: h:p}; every other section is unchanged and no section is added but `Peer` |
| `WgConf.SetServerOverwrites` | vpn_swapper/wg_conf.py:13 | a second `set_server` replaces the whole peer: the configuration is as if only the second call had been made, so repeating a call with equal arguments changes nothing |
| `WgConf.EndpointRoundTrip` | vpn_swapper/wg_conf.py:15 | for a host without ':' and an integer port, `get_endpoint` after `set_server` gives back that host and port |
| `WgConf.ColonHostIsMisread` | vpn_swapper/wg_conf.py:35-36 | an IPv6 host (`fe80::1`) does not round trip, whatever the port: part 1 of the split is empty and `int` raises ValueError |
| `WgConf.PeersGuardEndpoint` | vpn_swapper/wg_conf.py:29-36 | `has_peers` is `'Peer' in cp`; `get_endpoint` raises the "no peers" error exactly when it is false, and with a peer it can only fail with KeyError, IndexError or ValueError |
| `WgConf.BlankConfShape` | vpn_swapper/wg_conf.py:53-66 | a blank configuration has no peer; it is empty when `wg genkey` wrote to stderr, and otherwise exactly an `Interface` section holding the generated key, the address 10.73.31.2/24 and the DNS server 8.8.8.8 |
| `WgConf.BlankWithoutKeyCannotDerive` | vpn_swapper/wg_conf.py:21 | when key generation failed, `get_pubkey` raises KeyError on the blank configuration |
| `WgConf.WgConf.constructor` | vpn_swapper/wg_conf.py:38-48 | `load`/`loads` wrap the parsed sections as they are |
| `WgConf.WgConf.Blank` | vpn_swapper/wg_conf.py:9-10 | `WgConf()` holds the blank configuration and has no peer |
| `WgConf.WgConf.SetServer` | vpn_swapper/wg_conf.py:12-17 | the new `cp` is the old one with the peer overwritten, and there is a peer afterwards; a None public key fails with TypeError after only AllowedIPs is stored |
| `Builtins.Strip` | vpn_swapper/wg_conf.py:27 | the result is the slice of the input that lies between its leading and trailing whitespace; it is empty exactly when the input is all whitespace |
| `Builtins.Split` | vpn_swapper/wg_conf.py:35 | there is at least one part; no part holds the separator; joining the parts with the separator gives the input back |
| `Builtins.SplitAt` | vpn_swapper/wg_conf.py:35 | splitting at the first separator gives the text before it, then the split of the rest |
| `Builtins.IntStringRoundTrip` | vpn_swapper/wg_conf.py:15 | `int(str(i)) == i` for every integer |
| `Builtins.IntStringHasNo` | vpn_swapper/wg_conf.py:15 | the decimal text of an integer holds no character other than a digit or '-' |
| `Config.Locations` | vpn_swapper/config.py:23-26 | the search order is four places: the explicit `config_file` argument (or ''), `~/.name/config.json`, `cwd/config.json` and `cwd\config.json` |
| `Config.FirstOpenFirstFit` | vpn_swapper/config.py:49-58 | the file used is the first that opens, and every path before it failed with an OSError; any other error ends the search there; nothing is found exactly when every path fails with an OSError |
| `Config.OpenConfig` | vpn_swapper/config.py:49-58 | the loop returns what the first-fit search finds |
| `Config.Merge` | vpn_swapper/config.py:36 | the keys are the union of the three maps; args win over the file, and the file wins over the defaults |
| `Config.DropUnset` | vpn_swapper/config.py:44-47 | a key is kept exactly when its argument is not None, with its value unchanged |
| `Config.ConfPrecedence` | vpn_swapper/config.py:15-47 | with a configuration file holding an object, `conf` holds every file key and every set argument; a set argument wins, and an unset one masks no file value |
| `Config.ConfEmptyWithoutFile` | vpn_swapper/config.py:19-39 | `conf` stays `{}` whenever the search does not yield a file holding a JSON object: when every path fails with an OSError, when an earlier error that is not an OSError ends the search, and when the file found does not hold an object |
| `Config.Lookup` | vpn_swapper/config.py:60-77 | a missing key gives None; a key ending in `_dir` or `_file` has its text resolved to a path; a value that cannot be made a path is returned as it is; a path already stored under such a key is resolved again; any other key gives its stored value |
| `Config.SetItemAsWritten` | vpn_swapper/config.py:79-86 | `__setitem__` as written raises KeyError exactly when the key exists and the new value is not itself a key; otherwise it stores the value under the key and keeps every other key |
| `Config.SetItemOverwriteRaises` | vpn_swapper/config.py:82 | overwriting an existing key with a value that is not itself a key raises KeyError in the warning |
| `Config.SetItemIntended` | vpn_swapper/config.py:79-86 | the key gets the new value and every other key keeps its own |
| `Config.SetItemAgrees` | vpn_swapper/config.py:81-86 | whenever the code as written does not raise, it stores what the intended assignment stores; for a new key it never raises |
| `Config.Config.constructor` | vpn_swapper/config.py:15-39 | `conf` is the merge of the first file found, or `{}` |
| `Config.Config.FromArgs` | vpn_swapper/config.py:44-47 | the configuration is built from the arguments that are not None |
| `Config.Config.Set` | vpn_swapper/config.py:79-86 | the corrected `config[key] = value` |
| `Ec2.PublicIps` | vpn_swapper/aws.py:25 | a KeyError exactly when some instance has no public address; otherwise one address per instance, in the same order |
| `Ec2.VpnHostsInOrder` | vpn_swapper/aws.py:22-25 | there are as many hosts as instances; instance i of reservation r appears right after the instances of the reservations before r |
| `Ec2.VpnHostsFailure` | vpn_swapper/aws.py:25 | the listing raises KeyError exactly when some instance of some reservation lacks `PublicIpAddress` |
| `Ec2.SshRule` | vpn_swapper/aws.py:32-44 | the rule is tcp, from port 22 to port 22, with the single CIDR `ip/32` |
| `Aws.SgChangesFirstGroupOnly` | vpn_swapper/aws.py:30-51 | the group is looked up by the name `vpn-swapper-sg`; one change follows exactly when a group exists, on the first group, revoke or authorize as asked; no group raises IndexError; a failed lookup raises its own error |
| `Aws.PrivkeyTranslation` | vpn_swapper/aws.py:53-59 | only a ClientError from the parameter store is turned into the swapper's own error, and no ClientError escapes; the key text is returned as stored |
| `Aws.AwsClient.GetVpnHosts` | vpn_swapper/aws.py:17-25 | one `describe_instances` for running `vpn-asg` instances, whose answer is flattened |
| `Aws.AwsClient.TerminateHost` | vpn_swapper/aws.py:27-28 | one termination of the given instance id |
| `Aws.AwsClient.ModifySecurityGroupRule` | vpn_swapper/aws.py:30-51 | the events and the result of the firewall change |
| `Aws.AwsClient.GetVpnPrivkey` | vpn_swapper/aws.py:53-59 | one parameter read, with the ClientError translation |
| `VpnHost.ConnectRetryPolicy` | vpn_swapper/vpn_host.py:10-23 | the first try has a 5 second timeout; the prompt happens exactly on its timeout; a second try without a timeout happens exactly when the answer is `y`; success comes only on a try that connects; a refusal propagates; any other answer raises "SSH timed out…"; only this host is contacted |
| `VpnHost.ServerConfFailure` | vpn_swapper/vpn_host.py:28-36 | the result is None exactly when the remote stderr is non-empty; a configuration is returned only when stderr was empty, and it is what parsing stdout gave |
| `VpnHost.VPNHost.Connect` | vpn_swapper/vpn_host.py:10-23 | the connect sequence's events and result |
| `Environment.CommandsCarryArguments` | vpn_swapper/vpn_host.py:25-26 | two `take` commands are the same text exactly when they name the same key; a `wg-quick` command is `sudo wg-quick`, then `up` exactly for the connect and `down` otherwise, then its file |
| `VpnHost.VPNHost.Take` | vpn_swapper/vpn_host.py:25-26 | exactly one command, `wg set wg0 peer k`, and nothing else |
| `VpnHost.VPNHost.GetServerConf` | vpn_swapper/vpn_host.py:28-36 | one `wg showconf wg0`, read as the server configuration |
| `VpnHost.VPNHost.GetEc2InstanceId` | vpn_swapper/vpn_host.py:38-46 | one metadata query; None when stderr is non-empty, stdout unstripped otherwise |
| `VpnHost.Open` | vpn_swapper/vpn_host.py:10-23 | a fresh handle on the host, after its connect sequence |
| `Swapper.AcquireFrom` | vpn_swapper/__main__.py:73-97 | the index claimed lies between the first candidate searched and the end of the list |
| `Swapper.AcquireSkipsBusy` | vpn_swapper/__main__.py:79-81 | skipping busy candidates costs only their probes |
| `Swapper.GetClientConfig` | vpn_swapper/__main__.py:22-28 | the saved configuration when its file exists, a fresh blank one otherwise |
| `Swapper.CheckedRun` | vpn_swapper/__main__.py:31-41 | one subprocess; a non-zero exit raises "Failed to run command" |
| `Swapper.VpnConnect` | vpn_swapper/__main__.py:45-52 | the file is written before `wg-quick up` runs |
| `Swapper.VpnDisconnect` | vpn_swapper/__main__.py:56-68 | `wg-quick down`, then the file is removed only if that succeeded |
| `Swapper.ProbeHost` | vpn_swapper/__main__.py:75-79 | open the candidate and read its configuration |
| `Swapper.ClaimHost` | vpn_swapper/__main__.py:83-91 | `take`, then authorize the firewall rule, letting a ClientError pass |
| `Swapper.Visit` | vpn_swapper/__main__.py:74-93 | one turn of the loop: either the candidate is busy and the scan moves on by its probe, or the search ends here with its result |
| `Swapper.Acquire` | vpn_swapper/__main__.py:73-97 | the loop does exactly what the first-fit search specifies: the same events, the host it returns, and the error it raises |
| `Swapper.Teardown` | vpn_swapper/__main__.py:157-173 | the teardown of the saved peer's host |
| `Swapper.Dismantle` | vpn_swapper/__main__.py:161-173 | the teardown once the host is reached |
| `Swapper.Decommission` | vpn_swapper/__main__.py:169-173 | the disconnect, then the termination |
| `Swapper.ConnectTo` | vpn_swapper/__main__.py:187-189 | a fresh read of the server configuration, then install; the client configuration in memory ends as `ConnectToClient` says: pointed at the host with the server's key when that key derives; with a peer holding only AllowedIPs when `wg pubkey` writes to stderr; unchanged when the read fails or `get_pubkey` raises |
| `Swapper.Adopt` | vpn_swapper/__main__.py:187-189 | what follows the read: a failed read raises its error, a None read raises AttributeError before anything is changed, and a configuration is installed |
| `Swapper.Install` | vpn_swapper/__main__.py:187-189 | `set_server` with the server's key, then `vpn_connect`; the client configuration in memory is the old one after `set_server` with the host, the port and the server's key (a None key leaves only AllowedIPs in the peer), and unchanged when `get_pubkey` raises |
| `Swapper.ClaimAndConnect` | vpn_swapper/__main__.py:181-189 | claim, then connect; any failure of the claim ends the run quietly; the client configuration in memory is unchanged unless the search returned a host, and then it is what connecting to that host leaves |
| `Swapper.Attach` | vpn_swapper/__main__.py:178-189 | list the pool, then claim and connect; a failed listing leaves the client configuration in memory unchanged |
| `Swapper.TakeDown` | vpn_swapper/__main__.py:156-173 | the teardown only when there is a saved peer |
| `Swapper.SwapConf` | vpn_swapper/__main__.py:156-189 | teardown, the terminate-mode stop, then attach; a failed teardown and terminate mode leave the client configuration in memory unchanged |
| `Swapper.Run` | vpn_swapper/__main__.py:150-189 | the whole run once the settings are read |
| `Swapper.Swap` | vpn_swapper/__main__.py:142-191 | `main`, for a command line |
| `SwapperFacts.ProbeReadsOnly` | vpn_swapper/__main__.py:75-79 | a probe contacts its own host only and never takes it |
| `SwapperFacts.ProbeOutcome` | vpn_swapper/__main__.py:78-79 | a candidate is busy or free exactly by whether the configuration read from it has a peer; a failed connect, a parse error, or a failed read ending in None aborts the search |
| `SwapperFacts.ScanReadsOnly` | vpn_swapper/__main__.py:74-81 | scanning the first n candidates contacts only those and takes none |
| `SwapperFacts.SearchEventsOnly` | vpn_swapper/__main__.py:73-97 | the search only talks SSH to candidates and changes the firewall group |
| `SwapperFacts.FirstFitFrom` | vpn_swapper/__main__.py:74-93 | for any probe and claim, searching from i returns k exactly when every candidate from i to before k is busy, k is free, and its claim succeeds |
| `SwapperFacts.AcquireFirstFit` | vpn_swapper/__main__.py:74-93 | `acquire_vpn_host` returns the k-th host exactly when every earlier host is busy and the k-th is free, and the firewall change succeeded or merely raised ClientError |
| `SwapperFacts.ClaimTakesOnce` | vpn_swapper/__main__.py:83-91 | a claim takes its host exactly once, with the client's key, and opens no connection |
| `SwapperFacts.WinnerEvents` | vpn_swapper/__main__.py:74-93 | a search won by k probes the busy hosts before k, then probes and claims k, and nothing more |
| `SwapperFacts.AcquireTakesWinner` | vpn_swapper/__main__.py:83 | the host returned is the only host taken, it is taken once and with the client's key, and no host after it is contacted |
| `SwapperFacts.AcquireFailure` | vpn_swapper/__main__.py:95-97 | all candidates busy, or none at all, raises "Unable to find open VPN" after probing them all; the first candidate that aborts raises its own error; neither case takes a host |
| `SwapperFacts.TeardownSequence` | vpn_swapper/__main__.py:156-173 | the order is: reach the host; read the instance id; revoke (a ClientError passes); `wg-quick down`; remove the file; then terminate the id read earlier. Any failure before the removal stops the teardown with the files untouched and nothing removed or terminated |
| `SwapperFacts.DismantleSteps` | vpn_swapper/__main__.py:161-173 | the same order and stops, from the instance-id read on |
| `SwapperFacts.DecommissionSteps` | vpn_swapper/__main__.py:169-173 | the file is removed only after `wg-quick down` succeeded, and the instance is terminated only after the file was removed |
| `SwapperFacts.TeardownOnlyTearsDown` | vpn_swapper/__main__.py:156-173 | the teardown never writes a file, lists the pool, takes a host or brings a tunnel up |
| `SwapperFacts.TakeDownTargetsSavedPeer` | vpn_swapper/__main__.py:156-158 | without a saved peer nothing happens; otherwise the host torn down is the one the saved endpoint names, and a bad endpoint raises before anything happens |
| `SwapperFacts.TerminateModeStops` | vpn_swapper/__main__.py:175-176 | in terminate mode a run that does not raise ends Terminated, and its only events are the key fetch and the teardown |
| `SwapperFacts.TerminateSkipsAttach` | vpn_swapper/__main__.py:175-176 | in terminate mode nothing follows the teardown |
| `SwapperFacts.ConnectToOutcome` | vpn_swapper/__main__.py:187-189 | the claimed host's configuration is read again first. A None read raises AttributeError and a None key raises TypeError. Every failure before the write (these two, a failed read, a server without a private key, a path that is not text) raises and writes nothing. Whenever more than the read happens, the client configuration pointed at the host with the server's key is written, then `wg-quick up` runs, and a failure of that raises "Failed to run command" |
| `SwapperFacts.InstallSteps` | vpn_swapper/__main__.py:187-189 | the file is written only when the server's key was derived, and then always before `wg-quick up` |
| `SwapperFacts.AttachQuietOnFailedSearch` | vpn_swapper/__main__.py:181-185 | the run ends NoOpenVpn exactly when the pool was listed but the client key or the search failed. Then no file is written and no `wg-quick` command is run |
| `SwapperFacts.QuietFailureEvents` | vpn_swapper/__main__.py:77-91 | on a quiet failure, besides the listing, the only events are SSH connects, prompts, `wg showconf` and `take` on listed hosts, and firewall-group changes, so nothing is terminated and no file is removed |
| `SwapperFacts.ClaimedAndConnected` | vpn_swapper/__main__.py:181-189 | a stage that attaches to h claimed h in the search, read it again, wrote the configuration pointed at h, then brought the tunnel up; h is the only host taken |
| `SwapperFacts.AttachedOutcome` | vpn_swapper/__main__.py:178-189 | a run that attaches to h listed the pool, took h and no other host, and left the configuration pointed at h with the server's key |
| `SwapperFacts.AdoptDumpsClient` | vpn_swapper/__main__.py:187-189 | once the server configuration is read, a connect that does not raise ends attached to that host, and the client file holds exactly the configuration left in memory, which has a peer |
| `SwapperFacts.ClaimAndConnectClientOutcome` | vpn_swapper/__main__.py:181-189 | a quiet end leaves the client configuration in memory as it was; any other end that does not raise is attached, and the file written holds exactly the configuration in memory |
| `SwapperFacts.AttachClientOutcome` | vpn_swapper/__main__.py:178-189 | the attach stage never ends Terminated; when it ends NoOpenVpn the client configuration in memory is as it was; when it attaches, the client file holds exactly the configuration in memory, and that has a peer |
| `SwapperFacts.SwapKeepsClientUnlessAttached` | vpn_swapper/__main__.py:156-189 | a swap that does not raise and does not attach leaves the client configuration in memory as it was |
| `SwapperFacts.DumpThenLoad` | vpn_swapper/__main__.py:24-25 | once `vpn_connect` wrote a configuration, the next `get_client_config` reads back the same sections, whether or not the tunnel came up |
| `SwapperFacts.NextRunTearsDownAttachedHost` | vpn_swapper/__main__.py:156-158 | for a numeric port and a host without ':', the next run sees the peer this run installed and tears down the very host it attached to |
| `SwapperFacts.CommandLineSettings` | vpn_swapper/config.py:36 | with a configuration file holding an object, `--terminate` comes from the command line; without one, every setting is None whatever the command line says |

## Left out

- The Windows branches of `main`, `vpn_connect` and `vpn_disconnect`, and `get_admin_status`: the model follows the Linux branch.
- Logging (vpn_swapper/log.py, `setup_logging` and every `logging` call), and argparse's own parsing. The command line is the `Cli` record of the three flags and `--logfile`.
- `config['region']` and `config['profile']`: they only select the boto3 session, which is the `Env` record.
- The SSH key: `RSAKey.from_private_key` is the oracle `rsaKey`, which either accepts the text or raises SshError. The key itself is not passed on to the connect, because the connect outcome is an oracle of the host.
- ConfigParser's text grammar: `showconf` output is parsed by the oracle `parseIni` (None is a ParsingError); `load`/`dump` of a local file keep the section map as it is. `str.lower` lowers ASCII letters only.
- `open()` of an integer or boolean setting (a file descriptor in Python) raises TypeError here.
- `checked_sp`'s message: only its head "Failed to run command" is modelled, not the command and the process error that follow it.
- Any exception of `exec_command` itself, and failures of file writes: they are left out.
- `wg genkey` and `wg pubkey` (vpn_swapper/wg_conf.py:20, 56) are the `Env.genkey` and `Env.pubkey` answers: they are never traced as `Subprocess` events, which cover only `wg-quick`. A failure to spawn a subprocess at all (no `wg` or `sudo` binary) is left out too.
- `int(str)` is modelled for optional sign and ASCII digits; `_` separators and non-ASCII digits are left out. `Value` has no JSON float, list or object, since the model reads no setting of those kinds.
- `Swapper.GetClientConfig`: once the path is text, reading an existing client file always succeeds in the model. PermissionError, IsADirectoryError and a ParsingError of a hand-edited file are left out.
- An unset `wg_port` is stored as the text `h:None`, and the next run's `get_endpoint` then raises ValueError. An IPv6 host raises ValueError the same way (`WgConf.ColonHostIsMisread`). Hence `SwapperFacts.NextRunTearsDownAttachedHost` requires a numeric port and a host without ':'.
- Remote replies are functions of host and command only, not of earlier commands. The peer check and `take` of two clients racing for one gateway are not modelled: the model is one sequential client.
- `Swapper.ClaimAndConnect`: the exception `main` catches at lines 181-185 is any exception of the search. The model catches exactly the errors the modelled steps raise.

Five behaviours of the code that are easy to miss when reading it; the model follows the code in each:

- A failed teardown step other than the firewall ClientError propagates out of `main`.
- A failed read of a candidate's configuration (None) aborts the search with AttributeError (`__main__.py:79`); it does not skip the candidate.
- A failed search makes `main` return quietly.
- The IndexError of a missing firewall group is caught by `main` like any other search failure.
- When no configuration file opens, `conf` stays empty, so even the command-line arguments are ignored.

## Findings

| source | as written | input that shows it | evidently intended | confidence | as-written member | corrected member |
|---|---|---|---|---|---|---|
| vpn_swapper/config.py:82 | the overwrite warning formats `self.conf[value]`, looking up the new value as a key | `conf = {'region': 'us-west-1'}`, then `config['region'] = 'us-east-2'` raises KeyError and stores nothing | format `self.conf[key]`, the previous value, and store the new one | not executed | `Config.SetItemAsWritten` | `Config.SetItemIntended` |
