/**
 * The pure half of `AwsClient`: the shape of a `describe_instances` response,
 * its flattening into the list of candidate hosts, and the SSH ingress rule.
 */
module Ec2 {
  import opened Builtins

  const POOL_TAG := "vpn-asg"
  const RUNNING := "running"
  const SG_NAME := "vpn-swapper-sg"
  const SSM_MISSING_MSG := "A private ssh key was not found in AWS SSM. If an ssh key exists, then the config\n parameter 'ssh_key_path' may need to be updated to point to it. "

  /** An instance of a reservation; `PublicIpAddress` may be missing from it. */
  datatype Instance = Instance(publicIp: Option<string>)
  datatype Reservation = Reservation(instances: seq<Instance>)

  /** One `IpPermissions` entry. */
  datatype IngressRule = IngressRule(protocol: string, fromPort: int, toPort: int, cidrs: seq<string>)

  /** `flatten.from_iterable` over the reservations' instance lists. */
  function Flatten(rs: seq<Reservation>): seq<Instance> {
    if rs == [] then [] else rs[0].instances + Flatten(rs[1..])
  }

  /** The number of instances in all reservations. */
  function Total(rs: seq<Reservation>): nat {
    if rs == [] then 0 else |rs[0].instances| + Total(rs[1..])
  }

  /** The number of instances in the reservations before the `r`-th. */
  function Offset(rs: seq<Reservation>, r: nat): nat
    requires r <= |rs|
  {
    Total(rs[..r])
  }

  /** `[i['PublicIpAddress'] for i in instances]`: a KeyError at the first instance without one. */
  function PublicIps(instances: seq<Instance>): (r: Result<seq<string>>)
    ensures r.Ok? <==> forall i :: 0 <= i < |instances| ==> instances[i].publicIp.Some?
    ensures r.Raise? ==> r.error == KeyError
    ensures r.Ok? ==> |r.value| == |instances|
                      && forall i :: 0 <= i < |instances| ==> r.value[i] == instances[i].publicIp.value
  {
    if instances == [] then Ok([])
    else
      match instances[0].publicIp
      case None => Raise(KeyError)
      case Some(ip) =>
        match PublicIps(instances[1..])
        case Raise(e) => Raise(e)
        case Ok(rest) => Ok([ip] + rest)
  }

  /** The hosts `get_vpn_hosts` returns for a `describe_instances` response. */
  function VpnHosts(rs: seq<Reservation>): Result<seq<string>> {
    PublicIps(Flatten(rs))
  }

  lemma {:induction false} FlattenLength(rs: seq<Reservation>)
    ensures |Flatten(rs)| == Total(rs)
  {
    if rs != [] {
      FlattenLength(rs[1..]);
    }
  }

  /** Instance `i` of reservation `r` sits after all instances of the earlier reservations. */
  lemma {:induction false} FlattenAt(rs: seq<Reservation>, r: nat, i: nat)
    requires r < |rs| && i < |rs[r].instances|
    ensures Offset(rs, r) + i < |Flatten(rs)|
    ensures Flatten(rs)[Offset(rs, r) + i] == rs[r].instances[i]
  {
    FlattenLength(rs);
    if r > 0 {
      FlattenAt(rs[1..], r - 1, i);
      assert rs[..r][1..] == rs[1..][..r - 1];
      assert Total(rs[..r]) == |rs[0].instances| + Total(rs[1..][..r - 1]);
    } else {
      assert rs[..r] == [];
    }
  }

  /**
   * `get_vpn_hosts` lists the public address of every instance, reservation by
   * reservation and instance by instance: instance `i` of reservation `r` comes
   * right after the instances of the reservations before `r`.
   */
  lemma VpnHostsInOrder(rs: seq<Reservation>, r: nat, i: nat)
    requires VpnHosts(rs).Ok?
    requires r < |rs| && i < |rs[r].instances|
    ensures |VpnHosts(rs).value| == Total(rs)
    ensures && Offset(rs, r) + i < Total(rs)
            && rs[r].instances[i].publicIp.Some?
            && VpnHosts(rs).value[Offset(rs, r) + i] == rs[r].instances[i].publicIp.value
  {
    FlattenLength(rs);
    FlattenAt(rs, r, i);
    var flat, k := Flatten(rs), Offset(rs, r) + i;
    assert flat[k].publicIp.Some?;
    assert VpnHosts(rs).value[k] == flat[k].publicIp.value;
  }

  /** The listing fails exactly when some instance has no public address. */
  lemma VpnHostsFailure(rs: seq<Reservation>)
    ensures VpnHosts(rs).Raise? <==> exists r, i :: 0 <= r < |rs| && 0 <= i < |rs[r].instances|
                                                     && rs[r].instances[i].publicIp.None?
    ensures VpnHosts(rs).Raise? ==> VpnHosts(rs).error == KeyError
  {
    FlattenLength(rs);
    if VpnHosts(rs).Raise? {
      var flat := Flatten(rs);
      var k :| 0 <= k < |flat| && flat[k].publicIp.None?;
      var r, i := Locate(rs, k);
      FlattenAt(rs, r, i);
    } else {
      forall r, i | 0 <= r < |rs| && 0 <= i < |rs[r].instances|
        ensures rs[r].instances[i].publicIp.Some?
      {
        FlattenAt(rs, r, i);
      }
    }
  }

  /** The reservation and the place in it of the `k`-th flattened instance. */
  lemma {:induction false} Locate(rs: seq<Reservation>, k: nat) returns (r: nat, i: nat)
    requires k < |Flatten(rs)|
    ensures r < |rs| && i < |rs[r].instances| && Offset(rs, r) + i == k
  {
    if k < |rs[0].instances| {
      r, i := 0, k;
      assert rs[..0] == [];
    } else {
      var r', i' := Locate(rs[1..], k - |rs[0].instances|);
      r, i := r' + 1, i';
      assert rs[..r][1..] == rs[1..][..r'];
    }
  }

  /** The rule `modify_security_group_rule(ip, _)` revokes or authorizes: SSH from `ip` alone. */
  function SshRule(ip: string): (rule: IngressRule)
    ensures rule.protocol == "tcp" && rule.fromPort == rule.toPort == 22
    ensures rule.cidrs == [ip + "/32"]
  {
    IngressRule("tcp", 22, 22, [ip + "/32"])
  }
}

/**
 * `AwsClient`: the four AWS calls the swapper makes, each recorded in the
 * `World` trace. The boto3 session behind them is the `Env` record.
 */
module Aws {
  import opened Builtins
  import opened Ec2
  import opened Environment

  /** What `get_vpn_hosts` returns for the `describe_instances` answer. */
  function HostsSpec(env: Env): Result<seq<string>> {
    match env.reservations
    case Ok(rs) => VpnHosts(rs)
    case Raise(e) => Raise(e)
  }

  /**
   * `modify_security_group_rule(ip, revoke)`: look the group up by name, then
   * revoke or authorize SSH from `ip` on the first group found.
   */
  function SgSpec(env: Env, ip: string, revoke: bool): Step<()> {
    var listed := [DescribeSecurityGroups(SG_NAME)];
    match env.groupIds
    case Raise(e) => Step(Raise(e), listed)
    case Ok(ids) =>
      if |ids| == 0 then Step(Raise(IndexError), listed)
      else
        var change := if revoke then RevokeIngress(ids[0], SshRule(ip)) else AuthorizeIngress(ids[0], SshRule(ip));
        Step(OutcomeOf(env.ingress(revoke, ids[0], SshRule(ip))), listed + [change])
  }

  /** `except ClientError`: what the callers of `modify_security_group_rule` let pass. */
  predicate Tolerated(r: Result<()>) {
    r.Ok? || r.error == ClientError
  }

  /** `get_vpn_privkey(path)`: a ClientError becomes the swapper's own error. */
  function PrivkeySpec(env: Env, path: Value): Result<string> {
    match env.parameter(path)
    case Raise(ClientError) => Raise(VpnSwapperException(SSM_MISSING_MSG))
    case r => r
  }

  /**
   * The rule change touches exactly one group, the first one named
   * `vpn-swapper-sg`, with the SSH rule for `ip`, in the direction asked for;
   * without such a group it raises IndexError and changes nothing.
   */
  lemma SgChangesFirstGroupOnly(env: Env, ip: string, revoke: bool)
    ensures var s := SgSpec(env, ip, revoke);
            && 1 <= |s.events| <= 2 && s.events[0] == DescribeSecurityGroups(SG_NAME)
            && (|s.events| == 2 <==> env.groupIds.Ok? && |env.groupIds.value| > 0)
            && (|s.events| == 2 ==>
                  s.events[1] == (if revoke then RevokeIngress(env.groupIds.value[0], SshRule(ip))
                                  else AuthorizeIngress(env.groupIds.value[0], SshRule(ip)))
                  && s.result == OutcomeOf(env.ingress(revoke, env.groupIds.value[0], SshRule(ip))))
            && (env.groupIds == Ok([]) ==> s.result == Raise(IndexError))
            && (env.groupIds.Raise? ==> s.result == Raise(env.groupIds.error))
  {
  }

  /** Only a ClientError of the parameter store is translated; the key text is returned as it is. */
  lemma PrivkeyTranslation(env: Env, path: Value)
    ensures PrivkeySpec(env, path).Ok? <==> env.parameter(path).Ok?
    ensures PrivkeySpec(env, path).Ok? ==> PrivkeySpec(env, path) == env.parameter(path)
    ensures env.parameter(path) == Raise(ClientError) ==>
              PrivkeySpec(env, path) == Raise(VpnSwapperException(SSM_MISSING_MSG))
    ensures env.parameter(path) != Raise(ClientError) ==> PrivkeySpec(env, path) == env.parameter(path)
    ensures PrivkeySpec(env, path).Raise? ==> PrivkeySpec(env, path).error != ClientError
  {
  }

  class AwsClient {
    const world: World

    /** `AwsClient(profile, region)`; the session is `world.env`. */
    constructor (world: World)
      ensures this.world == world
    {
      this.world := world;
    }

    /** `get_vpn_hosts()`. */
    method GetVpnHosts() returns (r: Result<seq<string>>)
      modifies world
      ensures world.trace == old(world.trace) + [DescribeInstances(POOL_TAG, RUNNING)]
      ensures r == HostsSpec(world.env) && world.files == old(world.files)
    {
      var response := world.DescribeVpnInstances();
      match response
      case Raise(e) =>
        r := Raise(e);
      case Ok(rs) =>
        r := VpnHosts(rs);
    }

    /** `terminate_host(instance_id)`. */
    method TerminateHost(instanceId: Option<string>) returns (o: Outcome)
      modifies world
      ensures world.trace == old(world.trace) + [TerminateInstances(instanceId)]
      ensures o == world.env.terminate(instanceId) && world.files == old(world.files)
    {
      o := world.Terminate(instanceId);
    }

    /** `modify_security_group_rule(ip, revoke)`. */
    method ModifySecurityGroupRule(ip: string, revoke: bool) returns (r: Result<()>)
      modifies world
      ensures world.trace == old(world.trace) + SgSpec(world.env, ip, revoke).events
      ensures r == SgSpec(world.env, ip, revoke).result && world.files == old(world.files)
    {
      var groups := world.DescribeSwapperGroups();
      if groups.Raise? {
        return Raise(groups.error);
      }
      if |groups.value| == 0 {
        return Raise(IndexError);
      }
      var o := world.Ingress(revoke, groups.value[0], SshRule(ip));
      r := OutcomeOf(o);
    }

    /** `get_vpn_privkey(path)`. */
    method GetVpnPrivkey(path: Value) returns (r: Result<string>)
      modifies world
      ensures world.trace == old(world.trace) + [GetParameter(path)]
      ensures r == PrivkeySpec(world.env, path) && world.files == old(world.files)
    {
      r := world.Parameter(path);
      if r == Raise(ClientError) {
        r := Raise(VpnSwapperException(SSM_MISSING_MSG));
      }
    }
  }
}
