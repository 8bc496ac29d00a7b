/**
 * `VPNHost`: a handle on one gateway, reached over SSH. Every operation is one
 * remote command; a non-empty error stream makes it return None.
 */
module VpnHost {
  import opened Builtins
  import opened WgConf
  import opened Environment

  const CONNECT_TIMEOUT := 5
  const RETRY_ANSWER := "y"
  const SSH_TIMEOUT_MSG := "SSH timed out, assure that you can connect to the VPN hosts"

  /**
   * The connect sequence of `VPNHost(host, ssh_key)`: one try with a 5 second
   * timeout; on a timeout, ask the user and try once more without a timeout
   * only if the answer is exactly "y". Only a timeout of the first try is handled.
   */
  function ConnectSpec(env: Env, host: string): Step<()> {
    var first := [SshConnect(host, Some(CONNECT_TIMEOUT))];
    match env.connect(host, Some(CONNECT_TIMEOUT))
    case Connected => Step(Ok(()), first)
    case Refused => Step(Raise(SshError), first)
    case TimedOut =>
      var asked := first + [Prompt(host)];
      if env.answer(host) != RETRY_ANSWER then Step(Raise(VpnSwapperException(SSH_TIMEOUT_MSG)), asked)
      else
        var retried := asked + [SshConnect(host, None)];
        match env.connect(host, None)
        case Connected => Step(Ok(()), retried)
        case Refused => Step(Raise(SshError), retried)
        case TimedOut => Step(Raise(SocketTimeout), retried)
  }

  /** What `get_server_conf` makes of the command's streams. */
  function ServerConf(out: Output, parseIni: string -> Option<Sections>): Result<Option<Sections>> {
    if out.stderr != "" then Ok(None)
    else
      match parseIni(out.stdout)
      case Some(cp) => Ok(Some(cp))
      case None => Raise(ParsingError)
  }

  /** What `get_ec2_instance_id` makes of the command's streams: stdout as it is. */
  function InstanceIdOf(out: Output): Option<string> {
    if out.stderr != "" then None else Some(out.stdout)
  }

  /** The connect policy: when the retry happens, when the prompt appears, what ends it. */
  lemma ConnectRetryPolicy(env: Env, host: string)
    ensures var s, c1, c2 := ConnectSpec(env, host), env.connect(host, Some(CONNECT_TIMEOUT)), env.connect(host, None);
            && s.events[0] == SshConnect(host, Some(CONNECT_TIMEOUT))
            && (Prompt(host) in s.events <==> c1 == TimedOut)
            && (SshConnect(host, None) in s.events <==> c1 == TimedOut && env.answer(host) == RETRY_ANSWER)
            && (s.result.Ok? <==> c1 == Connected || (c1 == TimedOut && env.answer(host) == RETRY_ANSWER && c2 == Connected))
            && (c1 == Refused ==> s.result == Raise(SshError))
            && (c1 == TimedOut && env.answer(host) != RETRY_ANSWER ==> s.result == Raise(VpnSwapperException(SSH_TIMEOUT_MSG)))
            && (forall e :: e in s.events ==> (e.SshConnect? || e.Prompt?) && e.host == host)
  {
  }

  /** A failed remote read is None, never a partial configuration. */
  lemma ServerConfFailure(out: Output, parseIni: string -> Option<Sections>)
    ensures ServerConf(out, parseIni) == Ok(None) <==> out.stderr != ""
    ensures ServerConf(out, parseIni).Ok? && ServerConf(out, parseIni).value.Some? ==>
              out.stderr == "" && parseIni(out.stdout) == ServerConf(out, parseIni).value
  {
  }

  class VPNHost {
    const host: string
    const world: World

    /** The handle itself, before its connect sequence runs. */
    constructor (host: string, world: World)
      ensures this.host == host && this.world == world
    {
      this.host := host;
      this.world := world;
    }

    /** The connect part of `__init__`. */
    method Connect() returns (r: Result<()>)
      modifies world
      ensures world.trace == old(world.trace) + ConnectSpec(world.env, host).events
      ensures r == ConnectSpec(world.env, host).result
      ensures world.files == old(world.files)
    {
      var c := world.Connect(host, Some(CONNECT_TIMEOUT));
      match c
      case Connected =>
        r := Ok(());
      case Refused =>
        r := Raise(SshError);
      case TimedOut =>
        var line := world.Ask(host);
        if line != RETRY_ANSWER {
          r := Raise(VpnSwapperException(SSH_TIMEOUT_MSG));
        } else {
          var c2 := world.Connect(host, None);
          r := match c2
            case Connected => Ok(())
            case Refused => Raise(SshError)
            case TimedOut => Raise(SocketTimeout);
        }
    }

    /** `take(pubkey)`: one command, nothing read back. */
    method Take(pubkey: Option<string>)
      modifies world
      ensures world.trace == old(world.trace) + [SshExec(host, SetPeer(OptText(pubkey)))]
      ensures world.files == old(world.files)
    {
      var _ := world.Exec(host, SetPeer(OptText(pubkey)));
    }

    /** `get_server_conf()`. */
    method GetServerConf() returns (r: Result<Option<Sections>>)
      modifies world
      ensures world.trace == old(world.trace) + [SshExec(host, ShowConf)]
      ensures r == ServerConf(world.env.exec(host, ShowConf), world.env.parseIni)
      ensures world.files == old(world.files)
    {
      var out := world.Exec(host, ShowConf);
      if out.stderr != "" {
        return Ok(None);
      }
      match world.env.parseIni(out.stdout)
      case Some(cp) =>
        r := Ok(Some(cp));
      case None =>
        r := Raise(ParsingError);
    }

    /** `get_ec2_instance_id()`. */
    method GetEc2InstanceId() returns (id: Option<string>)
      modifies world
      ensures world.trace == old(world.trace) + [SshExec(host, InstanceId)]
      ensures id == InstanceIdOf(world.env.exec(host, InstanceId))
      ensures world.files == old(world.files)
    {
      var out := world.Exec(host, InstanceId);
      id := if out.stderr != "" then None else Some(out.stdout);
    }
  }

  /** `VPNHost(host, ssh_key)`: the handle and how its connect sequence ended. */
  method Open(world: World, host: string) returns (h: VPNHost, r: Result<()>)
    modifies world
    ensures fresh(h) && h.host == host && h.world == world
    ensures world.trace == old(world.trace) + ConnectSpec(world.env, host).events
    ensures r == ConnectSpec(world.env, host).result
    ensures world.files == old(world.files)
  {
    h := new VPNHost(host, world);
    r := h.Connect();
  }
}
