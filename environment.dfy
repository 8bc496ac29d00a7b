/**
 * Everything outside the swapper's own logic. `Env` holds the answers of the
 * collaborators (SSH, the user at the prompt, subprocesses, the AWS APIs, the
 * configuration file search); `World` records, in order, every side effect the
 * program causes and holds the local files that persist a dumped `WgConf`.
 */
module Environment {
  import opened Builtins
  import opened WgConf
  import opened Ec2
  import opened Config

  /** The commands the swapper sends over SSH. */
  datatype RemoteCmd = ShowConf | InstanceId | SetPeer(pubkey: string)

  /** The text of each remote command. */
  function CommandLine(c: RemoteCmd): string {
    match c
    case ShowConf => "sudo wg showconf wg0"
    case InstanceId => "curl -s http://169.254.169.254/latest/meta-data/instance-id"
    case SetPeer(k) => "sudo wg set wg0 peer " + k + " allowed-ips 10.73.31.2"
  }

  /** The local commands run through `checked_sp` (the Linux branch). */
  datatype LocalCmd = QuickUp(path: string) | QuickDown(path: string)

  function Argv(c: LocalCmd): seq<string> {
    match c
    case QuickUp(p) => ["sudo", "wg-quick", "up", p]
    case QuickDown(p) => ["sudo", "wg-quick", "down", p]
  }

  /**
   * The commands carry their arguments verbatim: two `take` commands are the
   * same text exactly when they name the same key, and each `wg-quick` command
   * names its file last and says by its third word whether it brings the tunnel up.
   */
  lemma CommandsCarryArguments(k1: string, k2: string, c: LocalCmd)
    ensures CommandLine(SetPeer(k1)) == CommandLine(SetPeer(k2)) <==> k1 == k2
    ensures |Argv(c)| == 4 && Argv(c)[..2] == ["sudo", "wg-quick"] && Argv(c)[3] == c.path
    ensures Argv(c)[2] == "up" <==> c.QuickUp?
  {
    var head := "sudo wg set wg0 peer ";
    var t1, t2 := CommandLine(SetPeer(k1)), CommandLine(SetPeer(k2));
    if t1 == t2 {
      assert |k1| == |k2|;
      assert t1[|head|..|head| + |k1|] == k1;
      assert t2[|head|..|head| + |k2|] == k2;
    }
    if c.QuickDown? {
      assert Argv(c)[2] == "down";
      assert "down" != "up" by { assert |"down"| != |"up"|; }
    }
  }

  /** How one `ssh.connect` ends. */
  datatype ConnectOutcome = Connected | TimedOut | Refused

  /** The two streams of an `exec_command`, decoded. */
  datatype Output = Output(stdout: string, stderr: string)

  /** The side effects, in the order they happen. */
  datatype Event =
    | SshConnect(host: string, timeout: Option<int>)
    | Prompt(host: string)
    | SshExec(host: string, cmd: RemoteCmd)
    | Subprocess(argv: LocalCmd)
    | DescribeInstances(tag: string, state: string)
    | DescribeSecurityGroups(groupName: string)
    | AuthorizeIngress(groupId: string, rule: IngressRule)
    | RevokeIngress(groupId: string, rule: IngressRule)
    | TerminateInstances(instanceId: Option<string>)
    | GetParameter(name: Value)
    | WriteFile(path: string)
    | RemoveFile(path: string)

  /** A step's result together with the events it caused. */
  datatype Step<T> = Step(result: Result<T>, events: seq<Event>)

  /** A step that may also change the local files. */
  datatype FileStep<T> = FileStep(result: Result<T>, events: seq<Event>, files: map<string, Sections>)

  /** The answers of the collaborators. */
  datatype Env = Env(
    connect: (string, Option<int>) -> ConnectOutcome,   // ssh.connect(host, timeout=...)
    answer: string -> string,                           // what the user types when asked about a host
    exec: (string, RemoteCmd) -> Output,                // exec_command on a host
    parseIni: string -> Option<Sections>,               // ConfigParser.read_file; None is a ParsingError
    genkey: Completed,                                  // wg genkey
    pubkey: string -> Completed,                        // wg pubkey, fed a private key
    run: LocalCmd -> Completed,                         // subprocess.run of a checked command
    reservations: Result<seq<Reservation>>,             // ec2.describe_instances
    groupIds: Result<seq<string>>,                      // ec2.describe_security_groups, the group ids
    ingress: (bool, string, IngressRule) -> Outcome,    // revoke (true) or authorize (false) an ingress rule
    terminate: Option<string> -> Outcome,               // ec2.terminate_instances
    parameter: Value -> Result<string>,                 // ssm.get_parameter
    rsaKey: string -> bool,                             // RSAKey.from_private_key accepts the text
    configFs: ConfigFs)                                 // what Config sees of the file system

  class World {
    const env: Env
    var trace: seq<Event>
    var files: map<string, Sections>

    constructor (env: Env, files: map<string, Sections>)
      ensures this.env == env && trace == [] && this.files == files
    {
      this.env := env;
      trace := [];
      this.files := files;
    }

    method Connect(host: string, timeout: Option<int>) returns (c: ConnectOutcome)
      modifies this
      ensures trace == old(trace) + [SshConnect(host, timeout)] && files == old(files)
      ensures c == env.connect(host, timeout)
    {
      trace := trace + [SshConnect(host, timeout)];
      c := env.connect(host, timeout);
    }

    /** `input(...)` at the retry prompt. */
    method Ask(host: string) returns (line: string)
      modifies this
      ensures trace == old(trace) + [Prompt(host)] && files == old(files)
      ensures line == env.answer(host)
    {
      trace := trace + [Prompt(host)];
      line := env.answer(host);
    }

    method Exec(host: string, cmd: RemoteCmd) returns (out: Output)
      modifies this
      ensures trace == old(trace) + [SshExec(host, cmd)] && files == old(files)
      ensures out == env.exec(host, cmd)
    {
      trace := trace + [SshExec(host, cmd)];
      out := env.exec(host, cmd);
    }

    method Run(cmd: LocalCmd) returns (p: Completed)
      modifies this
      ensures trace == old(trace) + [Subprocess(cmd)] && files == old(files)
      ensures p == env.run(cmd)
    {
      trace := trace + [Subprocess(cmd)];
      p := env.run(cmd);
    }

    method DescribeVpnInstances() returns (r: Result<seq<Reservation>>)
      modifies this
      ensures trace == old(trace) + [DescribeInstances(POOL_TAG, RUNNING)] && files == old(files)
      ensures r == env.reservations
    {
      trace := trace + [DescribeInstances(POOL_TAG, RUNNING)];
      r := env.reservations;
    }

    method DescribeSwapperGroups() returns (r: Result<seq<string>>)
      modifies this
      ensures trace == old(trace) + [DescribeSecurityGroups(SG_NAME)] && files == old(files)
      ensures r == env.groupIds
    {
      trace := trace + [DescribeSecurityGroups(SG_NAME)];
      r := env.groupIds;
    }

    method Ingress(revoke: bool, groupId: string, rule: IngressRule) returns (o: Outcome)
      modifies this
      ensures trace == old(trace) + [if revoke then RevokeIngress(groupId, rule) else AuthorizeIngress(groupId, rule)]
      ensures files == old(files)
      ensures o == env.ingress(revoke, groupId, rule)
    {
      trace := trace + [if revoke then RevokeIngress(groupId, rule) else AuthorizeIngress(groupId, rule)];
      o := env.ingress(revoke, groupId, rule);
    }

    method Terminate(instanceId: Option<string>) returns (o: Outcome)
      modifies this
      ensures trace == old(trace) + [TerminateInstances(instanceId)] && files == old(files)
      ensures o == env.terminate(instanceId)
    {
      trace := trace + [TerminateInstances(instanceId)];
      o := env.terminate(instanceId);
    }

    method Parameter(name: Value) returns (r: Result<string>)
      modifies this
      ensures trace == old(trace) + [GetParameter(name)] && files == old(files)
      ensures r == env.parameter(name)
    {
      trace := trace + [GetParameter(name)];
      r := env.parameter(name);
    }

    /** `open(path, 'w')` and `wg.dump(f)`. */
    method Write(path: string, cp: Sections)
      modifies this
      ensures trace == old(trace) + [WriteFile(path)] && files == old(files)[path := cp]
    {
      trace := trace + [WriteFile(path)];
      files := files[path := cp];
    }

    /** `os.remove(path)`. */
    method Remove(path: string) returns (o: Outcome)
      modifies this
      ensures trace == old(trace) + [RemoveFile(path)]
      ensures o == if path in old(files) then Pass else Fail(FileNotFoundError)
      ensures files == old(files) - {path}
    {
      trace := trace + [RemoveFile(path)];
      o := if path in files then Pass else Fail(FileNotFoundError);
      files := files - {path};
    }
  }
}
