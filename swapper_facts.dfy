/**
 * What the swap flow promises, stated over the step functions of `Swapper`:
 * the search is first-fit and takes exactly the host it returns, teardown runs
 * its steps in a fixed order and stops at the first failure, terminate mode
 * never reaches the pool, a failed search leaves the client untouched, and a
 * successful run leaves a configuration the next run tears down again.
 */
module SwapperFacts {
  import opened Builtins
  import opened WgConf
  import opened Config
  import opened Ec2
  import opened Environment
  import opened VpnHost
  import opened Aws
  import opened Swapper

  /** The hosts a `take` was sent to, in the order it was sent. */
  function Takes(events: seq<Event>): seq<string> {
    if events == [] then []
    else (if events[0].SshExec? && events[0].cmd.SetPeer? then [events[0].host] else []) + Takes(events[1..])
  }

  lemma {:induction false} TakesAppend(a: seq<Event>, b: seq<Event>)
    ensures Takes(a + b) == Takes(a) + Takes(b)
  {
    if a == [] {
      assert a + b == b;
    } else {
      assert (a + b)[0] == a[0] && (a + b)[1..] == a[1..] + b;
      TakesAppend(a[1..], b);
    }
  }

  lemma {:induction false} NoTakes(events: seq<Event>)
    requires forall e :: e in events ==> !(e.SshExec? && e.cmd.SetPeer?)
    ensures Takes(events) == []
  {
    if events != [] {
      assert forall e :: e in events[1..] ==> e in events;
      NoTakes(events[1..]);
    }
  }

  lemma PrefixGrows<T>(s: seq<T>, k: nat)
    requires k < |s|
    ensures s[..k + 1] == s[..k] + [s[k]]
  {
  }

  /** An event of reading a candidate: the SSH connect, the prompt, `wg showconf`. */
  predicate ProbeEvent(e: Event) {
    e.SshConnect? || e.Prompt? || (e.SshExec? && e.cmd == ShowConf)
  }

  /**
   * An event of the search: SSH to one of the candidates, running only
   * `wg showconf` or `take` there, or a change to the firewall group.
   */
  predicate SearchEvent(e: Event, hosts: seq<string>) {
    || ((e.SshConnect? || e.Prompt?) && e.host in hosts)
    || (e.SshExec? && e.host in hosts && (e.cmd == ShowConf || e.cmd.SetPeer?))
    || e.DescribeSecurityGroups? || e.AuthorizeIngress? || e.RevokeIngress?
  }

  /** A probe talks to its own host only, and never takes it. */
  lemma ProbeReadsOnly(env: Env, host: string)
    ensures forall e :: e in ProbeSpec(env, host).events ==> ProbeEvent(e) && e.host == host
  {
  }

  /**
   * What probing a candidate finds: busy or free by its server configuration's
   * `Peer` section once it is reached and read; a failed connect, a parse error
   * and a failed read (the None of `get_server_conf`) each end the search.
   */
  lemma ProbeOutcome(env: Env, host: string)
    ensures var p, open, read := ProbeSpec(env, host).probe, ConnectSpec(env, host).result,
                                 ServerConf(env.exec(host, ShowConf), env.parseIni);
            && (p.Busy? <==> open.Ok? && read.Ok? && read.value.Some? && HasPeers(read.value.value))
            && (p.Free? <==> open.Ok? && read.Ok? && read.value.Some? && !HasPeers(read.value.value))
            && (open.Raise? ==> p == Abort(open.error))
            && (open.Ok? && env.exec(host, ShowConf).stderr != "" ==> p == Abort(AttributeError))
            && (open.Ok? && read.Raise? ==> p == Abort(read.error))
  {
    ServerConfFailure(env.exec(host, ShowConf), env.parseIni);
  }

  lemma {:induction false} ScanReadsOnly(env: Env, hosts: seq<string>, n: nat)
    requires n <= |hosts|
    ensures forall e :: e in ScanEvents(Prober(env), hosts, n) ==> ProbeEvent(e) && e.host in hosts[..n]
  {
    if n > 0 {
      ScanReadsOnly(env, hosts, n - 1);
      ProbeReadsOnly(env, hosts[n - 1]);
      PrefixGrows(hosts, n - 1);
    }
  }

  lemma {:induction false} SearchEventsOnly(env: Env, hosts: seq<string>, pubkey: Option<string>, i: nat)
    ensures forall e :: e in AcquireFrom(Prober(env), Claimer(env, pubkey), hosts, i).events ==> SearchEvent(e, hosts)
    decreases |hosts| - i
  {
    if i < |hosts| {
      ProbeReadsOnly(env, hosts[i]);
      if ProbeSpec(env, hosts[i]).probe == Busy {
        SearchEventsOnly(env, hosts, pubkey, i + 1);
      }
    }
  }

  /** First-fit for any probe and claim, from candidate `i` on. */
  lemma {:induction false} FirstFitFrom(probe: string -> ProbeStep, claim: string -> Step<()>,
                                        hosts: seq<string>, i: nat, k: nat)
    requires i <= k
    ensures AcquireFrom(probe, claim, hosts, i).result == Ok(k) <==>
              && k < |hosts|
              && (forall j :: i <= j < k ==> probe(hosts[j]).probe == Busy)
              && probe(hosts[k]).probe == Free
              && claim(hosts[k]).result.Ok?
    decreases |hosts| - i
  {
    if i < |hosts| && i < k && probe(hosts[i]).probe == Busy {
      FirstFitFrom(probe, claim, hosts, i + 1, k);
    }
  }

  /**
   * `acquire_vpn_host` returns candidate `k` exactly when every earlier one was
   * busy, `k` is free, and opening the firewall for it succeeded or failed with
   * a ClientError: a ClientError there does not change the host returned.
   */
  lemma AcquireFirstFit(env: Env, hosts: seq<string>, pubkey: Option<string>, k: nat)
    ensures AcquireSpec(env, hosts, pubkey).result == Ok(k) <==>
              && k < |hosts|
              && (forall j :: 0 <= j < k ==> ProbeSpec(env, hosts[j]).probe == Busy)
              && ProbeSpec(env, hosts[k]).probe == Free
              && Tolerated(SgSpec(env, hosts[k], false).result)
  {
    FirstFitFrom(Prober(env), Claimer(env, pubkey), hosts, 0, k);
    if k < |hosts| {
      assert (forall j :: 0 <= j < k ==> Prober(env)(hosts[j]).probe == Busy)
             <==> (forall j :: 0 <= j < k ==> ProbeSpec(env, hosts[j]).probe == Busy);
    }
  }

  /** A claim takes its host once, and opens no SSH connection. */
  lemma ClaimTakesOnce(env: Env, host: string, pubkey: Option<string>)
    ensures Takes(ClaimSpec(env, host, pubkey).events) == [host]
    ensures SshExec(host, SetPeer(OptText(pubkey))) in ClaimSpec(env, host, pubkey).events
    ensures forall e :: e in ClaimSpec(env, host, pubkey).events ==> !e.SshConnect?
  {
    var take, sg := [SshExec(host, SetPeer(OptText(pubkey)))], SgSpec(env, host, false).events;
    SgChangesFirstGroupOnly(env, host, false);
    NoTakes(sg);
    TakesAppend(take, sg);
  }

  /** The events of a search that returns candidate `k`: the busy probes, then the probe and the claim of `k`. */
  lemma WinnerEvents(env: Env, hosts: seq<string>, pubkey: Option<string>, k: nat)
    requires AcquireSpec(env, hosts, pubkey).result == Ok(k)
    ensures k < |hosts|
    ensures AcquireSpec(env, hosts, pubkey).events
            == ScanEvents(Prober(env), hosts, k)
               + (ProbeSpec(env, hosts[k]).events + ClaimSpec(env, hosts[k], pubkey).events)
  {
    AcquireFirstFit(env, hosts, pubkey, k);
    AcquireSkipsBusy(Prober(env), Claimer(env, pubkey), hosts, k);
    AcquireAtStop(env, hosts, pubkey, k);
  }

  /**
   * The host returned is the only one taken, and taken once, with the client's
   * key; no candidate after it is contacted.
   */
  lemma AcquireTakesWinner(env: Env, hosts: seq<string>, pubkey: Option<string>, k: nat)
    requires AcquireSpec(env, hosts, pubkey).result == Ok(k)
    ensures k < |hosts|
    ensures Takes(AcquireSpec(env, hosts, pubkey).events) == [hosts[k]]
    ensures SshExec(hosts[k], SetPeer(OptText(pubkey))) in AcquireSpec(env, hosts, pubkey).events
    ensures forall e :: e in AcquireSpec(env, hosts, pubkey).events && e.SshConnect? ==> e.host in hosts[..k + 1]
  {
    WinnerEvents(env, hosts, pubkey, k);
    var scan, probed, claimed := ScanEvents(Prober(env), hosts, k), ProbeSpec(env, hosts[k]).events,
                                 ClaimSpec(env, hosts[k], pubkey).events;
    ScanReadsOnly(env, hosts, k);
    NoTakes(scan);
    ProbeReadsOnly(env, hosts[k]);
    NoTakes(probed);
    ClaimTakesOnce(env, hosts[k], pubkey);
    TakesAppend(probed, claimed);
    TakesAppend(scan, probed + claimed);
    PrefixGrows(hosts, k);
  }

  /**
   * The ways the search fails: every candidate busy (or none at all) raises
   * "Unable to find open VPN" after probing them all; the first candidate that
   * is neither busy nor free raises its own error. Neither takes any host.
   */
  lemma AcquireFailure(env: Env, hosts: seq<string>, pubkey: Option<string>, k: nat)
    requires k <= |hosts|
    requires forall j :: 0 <= j < k ==> ProbeSpec(env, hosts[j]).probe == Busy
    ensures var s := AcquireSpec(env, hosts, pubkey);
            k == |hosts| ==> && s.result == Raise(VpnSwapperException(NO_OPEN_VPN_MSG))
                             && s.events == ScanEvents(Prober(env), hosts, k)
                             && Takes(s.events) == []
    ensures k < |hosts| && ProbeSpec(env, hosts[k]).probe.Abort? ==>
              var s, p := AcquireSpec(env, hosts, pubkey), ProbeSpec(env, hosts[k]);
                                              && s.result == Raise(p.probe.error)
                                              && s.events == ScanEvents(Prober(env), hosts, k) + p.events
                                              && Takes(s.events) == []
  {
    AcquireSkipsBusy(Prober(env), Claimer(env, pubkey), hosts, k);
    ScanReadsOnly(env, hosts, k);
    if k == |hosts| {
      assert ScanEvents(Prober(env), hosts, k) + [] == ScanEvents(Prober(env), hosts, k);
      NoTakes(ScanEvents(Prober(env), hosts, k));
    } else if ProbeSpec(env, hosts[k]).probe.Abort? {
      AcquireAtStop(env, hosts, pubkey, k);
      ProbeReadsOnly(env, hosts[k]);
      NoTakes(ScanEvents(Prober(env), hosts, k) + ProbeSpec(env, hosts[k]).events);
    }
  }

  /**
   * The teardown of the previous tunnel: the instance id is read, the firewall
   * rule revoked (a ClientError let pass), the tunnel brought down and its file
   * removed, and only then the instance read earlier terminated. Any failure
   * before the removal stops it there, with the local files untouched and
   * nothing terminated. It never writes a file, lists the pool or takes a host.
   */
  lemma TeardownSequence(env: Env, files: map<string, Sections>, host: string, path: Value)
    ensures var s, open, sg := TeardownSpec(env, files, host, path), ConnectSpec(env, host), SgSpec(env, host, true);
            var id := InstanceIdOf(env.exec(host, InstanceId));
            var down := open.result.Ok? && Tolerated(sg.result) && PathText(path).Ok?
                        && CheckedSpec(env, QuickDown(PathText(path).value)).Ok?;
            && (down ==>
                  var p := PathText(path).value;
                  && s.events == open.events + ([SshExec(host, InstanceId)] + sg.events
                                 + ([Subprocess(QuickDown(p)), RemoveFile(p)]
                                    + (if p in files then [TerminateInstances(id)] else [])))
                  && s.files == files - {p}
                  && s.result == (if p in files then OutcomeOf(env.terminate(id)) else Raise(FileNotFoundError)))
            && (!down ==> && s.result.Raise? && s.files == files
                          && forall e :: e in s.events ==> !e.RemoveFile? && !e.TerminateInstances?)
  {
    ConnectRetryPolicy(env, host);
    DismantleSteps(env, files, host, path);
  }

  /** The teardown once the old host is reached. */
  lemma DismantleSteps(env: Env, files: map<string, Sections>, host: string, path: Value)
    ensures var s, sg := DismantleSpec(env, files, host, path), SgSpec(env, host, true);
            var id := InstanceIdOf(env.exec(host, InstanceId));
            var down := Tolerated(sg.result) && PathText(path).Ok? && CheckedSpec(env, QuickDown(PathText(path).value)).Ok?;
            && (down ==>
                  var p := PathText(path).value;
                  && s.events == [SshExec(host, InstanceId)] + sg.events
                                 + ([Subprocess(QuickDown(p)), RemoveFile(p)]
                                    + (if p in files then [TerminateInstances(id)] else []))
                  && s.files == files - {p}
                  && s.result == (if p in files then OutcomeOf(env.terminate(id)) else Raise(FileNotFoundError)))
            && (!down ==> && s.result.Raise? && s.files == files
                          && forall e :: e in s.events ==> !e.RemoveFile? && !e.TerminateInstances?)
  {
    SgChangesFirstGroupOnly(env, host, true);
    DecommissionSteps(env, files, InstanceIdOf(env.exec(host, InstanceId)), path);
  }

  /** Taking the tunnel down and terminating: the removal only after `wg-quick down` succeeded, the termination only after the removal. */
  lemma DecommissionSteps(env: Env, files: map<string, Sections>, id: Option<string>, path: Value)
    ensures var s := DecommissionSpec(env, files, id, path);
            var down := PathText(path).Ok? && CheckedSpec(env, QuickDown(PathText(path).value)).Ok?;
            && (down ==>
                  var p := PathText(path).value;
                  && s.events == [Subprocess(QuickDown(p)), RemoveFile(p)] + (if p in files then [TerminateInstances(id)] else [])
                  && s.files == files - {p}
                  && s.result == (if p in files then OutcomeOf(env.terminate(id)) else Raise(FileNotFoundError)))
            && (!down ==> && s.result.Raise? && s.files == files
                          && forall e :: e in s.events ==> !e.RemoveFile? && !e.TerminateInstances?)
  {
  }

  /** An event of the teardown: SSH to the old host, the firewall revoke, `wg-quick down`, the removal, the termination. */
  predicate TeardownEvent(e: Event) {
    || e.SshConnect? || e.Prompt? || (e.SshExec? && e.cmd == InstanceId)
    || e.DescribeSecurityGroups? || e.RevokeIngress?
    || (e.Subprocess? && e.argv.QuickDown?) || e.RemoveFile? || e.TerminateInstances?
  }

  lemma TunnelDownEvents(env: Env, files: map<string, Sections>, path: Value)
    ensures forall e :: e in TunnelDownSpec(env, files, path).events ==> TeardownEvent(e)
  {
  }

  /** The teardown only tears down: it never writes a file, lists the pool, takes a host or brings a tunnel up. */
  lemma TeardownOnlyTearsDown(env: Env, files: map<string, Sections>, host: string, path: Value)
    ensures forall e :: e in TeardownSpec(env, files, host, path).events ==> TeardownEvent(e)
  {
    ConnectRetryPolicy(env, host);
    if ConnectSpec(env, host).result.Ok? {
      DismantleOnlyTearsDown(env, files, host, path);
      TeardownJoin(ConnectSpec(env, host).events, DismantleSpec(env, files, host, path).events);
    }
  }

  lemma DismantleOnlyTearsDown(env: Env, files: map<string, Sections>, host: string, path: Value)
    ensures forall e :: e in DismantleSpec(env, files, host, path).events ==> TeardownEvent(e)
  {
    SgChangesFirstGroupOnly(env, host, true);
    var closed := [SshExec(host, InstanceId)] + SgSpec(env, host, true).events;
    assert forall e :: e in closed ==> TeardownEvent(e);
    if Tolerated(SgSpec(env, host, true).result) {
      var id := InstanceIdOf(env.exec(host, InstanceId));
      TunnelDownEvents(env, files, path);
      TeardownJoin(TunnelDownSpec(env, files, path).events, [TerminateInstances(id)]);
      TeardownJoin(closed, DecommissionSpec(env, files, id, path).events);
    }
  }

  /** Two runs of teardown events make one. */
  lemma TeardownJoin(a: seq<Event>, b: seq<Event>)
    requires forall e :: e in a ==> TeardownEvent(e)
    requires forall e :: e in b ==> TeardownEvent(e)
    ensures forall e :: e in a + b ==> TeardownEvent(e)
  {
  }

  /** Lines 156-173 of `main` do nothing without a saved peer, and tear down its host otherwise. */
  lemma TakeDownTargetsSavedPeer(env: Env, files: map<string, Sections>, cp: Sections, path: Value)
    ensures !HasPeers(cp) ==> TakeDownSpec(env, files, cp, path) == FileStep(Ok(()), [], files)
    ensures GetEndpoint(cp).Ok? ==> TakeDownSpec(env, files, cp, path) == TeardownSpec(env, files, GetEndpoint(cp).value.0, path)
    ensures HasPeers(cp) && GetEndpoint(cp).Raise? ==>
              TakeDownSpec(env, files, cp, path) == FileStep(Raise(GetEndpoint(cp).error), [], files)
    ensures forall e :: e in TakeDownSpec(env, files, cp, path).events ==> TeardownEvent(e)
  {
    if GetEndpoint(cp).Ok? {
      TeardownOnlyTearsDown(env, files, GetEndpoint(cp).value.0, path);
    }
  }

  /**
   * In terminate mode `main` returns right after the teardown: it never lists
   * the pool, takes a host, writes a configuration or brings a tunnel up.
   */
  lemma TerminateModeStops(env: Env, files: map<string, Sections>, keyPath: Value, path: Value, port: Value)
    ensures var s := RunSpec(env, files, keyPath, path, port, true);
            && (s.result.Ok? ==> s.result.value == Terminated)
            && forall e :: e in s.events ==> e == GetParameter(keyPath) || TeardownEvent(e)
  {
    if PrivkeySpec(env, keyPath).Ok? && env.rsaKey(PrivkeySpec(env, keyPath).value) && ClientConfSpec(env, files, path).Ok? {
      var cp := ClientConfSpec(env, files, path).value;
      TakeDownTargetsSavedPeer(env, files, cp, path);
      TerminateSkipsAttach(env, files, cp, path, port);
    }
  }

  /** Line 176 of `main`: in terminate mode nothing follows the teardown. */
  lemma TerminateSkipsAttach(env: Env, files: map<string, Sections>, cp: Sections, path: Value, port: Value)
    ensures var s := SwapConfSpec(env, files, cp, path, port, true);
            && s.events == TakeDownSpec(env, files, cp, path).events
            && (s.result.Ok? ==> s.result.value == Terminated)
  {
  }

  /**
   * Connecting to the claimed host: a fresh read of its server configuration,
   * then the client configuration pointed at it with the server's public key,
   * written before the tunnel comes up. A failed read, a server key that
   * cannot be derived or a path that is not text stops it before anything is
   * written.
   */
  lemma ConnectToOutcome(env: Env, files: map<string, Sections>, cp: Sections, host: string, path: Value, port: Value)
    ensures var s, server := ConnectToSpec(env, files, cp, host, path, port), ServerConf(env.exec(host, ShowConf), env.parseIni);
            && s.events[0] == SshExec(host, ShowConf)
            && (s.result.Ok? ==> s.result.value == Attached(host))
            && (server == Ok(None) ==> s.result == Raise(AttributeError) && s.files == files && s.events == [SshExec(host, ShowConf)])
            && (server.Ok? && server.value.Some? && GetPubkey(server.value.value, env.pubkey) == Ok(None) ==>
                  s.result == Raise(TypeError) && s.files == files && s.events == [SshExec(host, ShowConf)])
            && (|s.events| == 1 ==> s.result.Raise? && s.files == files)
            && (|s.events| > 1 ==>
                  && server.Ok? && server.value.Some? && GetPubkey(server.value.value, env.pubkey).Ok?
                  && GetPubkey(server.value.value, env.pubkey).value.Some? && PathText(path).Ok?
                  && var p, key := PathText(path).value, GetPubkey(server.value.value, env.pubkey).value.value;
                     && s.files == files[p := WithServer(cp, host, port, Some(key))]
                     && s.events == [SshExec(host, ShowConf), WriteFile(p), Subprocess(QuickUp(p))]
                     && s.result == (if CheckedSpec(env, QuickUp(p)).Ok? then Ok(Attached(host))
                                     else Raise(VpnSwapperException(COMMAND_FAILED_MSG))))
  {
    var server := ServerConf(env.exec(host, ShowConf), env.parseIni);
    if server.Ok? && server.value.Some? {
      InstallSteps(env, files, cp, host, server.value.value, path, port);
    }
  }

  /** `set_server` and `vpn_connect` with a fetched server configuration: the file is written only with the server's key. */
  lemma InstallSteps(env: Env, files: map<string, Sections>, cp: Sections, host: string, server: Sections,
                     path: Value, port: Value)
    ensures var s, key := InstallSpec(env, files, cp, host, server, path, port), GetPubkey(server, env.pubkey);
            && (key == Ok(None) ==> s.result == Raise(TypeError) && s.events == [] && s.files == files)
            && (s.events == [] ==> s.result.Raise? && s.files == files)
            && (s.events != [] ==>
                  && key.Ok? && key.value.Some? && PathText(path).Ok?
                  && var p := PathText(path).value;
                     && s.files == files[p := WithServer(cp, host, port, key.value)]
                     && s.events == [WriteFile(p), Subprocess(QuickUp(p))]
                     && s.result == (if CheckedSpec(env, QuickUp(p)).Ok? then Ok(Attached(host))
                                     else Raise(VpnSwapperException(COMMAND_FAILED_MSG))))
  {
  }

  /**
   * A failed search ends the run quietly (lines 181-185 of `main`): the result
   * is NoOpenVpn exactly when the pool was listed but no host was claimed, and
   * then no file is written and no `wg-quick` command is run.
   */
  lemma AttachQuietOnFailedSearch(env: Env, files: map<string, Sections>, cp: Sections, path: Value, port: Value)
    ensures AttachSpec(env, files, cp, path, port).result == Ok(NoOpenVpn) <==>
              && HostsSpec(env).Ok?
              && (|| GetPubkey(cp, env.pubkey).Raise?
                  || AcquireSpec(env, HostsSpec(env).value, GetPubkey(cp, env.pubkey).value).result.Raise?)
    ensures var s := AttachSpec(env, files, cp, path, port);
            s.result == Ok(NoOpenVpn) ==> && s.files == files
                                          && forall e :: e in s.events ==> !e.WriteFile? && !e.Subprocess?
  {
    if HostsSpec(env).Ok? && GetPubkey(cp, env.pubkey).Ok? {
      var hosts, pubkey := HostsSpec(env).value, GetPubkey(cp, env.pubkey).value;
      SearchEventsOnly(env, hosts, pubkey, 0);
      var acq := AcquireSpec(env, hosts, pubkey);
      if acq.result.Ok? {
        ConnectToOutcome(env, files, cp, hosts[acq.result.value], path, port);
      }
    }
  }

  /**
   * What a quiet failure does: besides the listing, its only events are the
   * search's reads, takes and firewall changes on the listed hosts, so in
   * particular nothing is terminated and no file is removed.
   */
  lemma QuietFailureEvents(env: Env, files: map<string, Sections>, cp: Sections, path: Value, port: Value)
    ensures var s := AttachSpec(env, files, cp, path, port);
            s.result == Ok(NoOpenVpn) ==>
              forall e :: e in s.events ==> e == DescribeInstances(POOL_TAG, RUNNING) || SearchEvent(e, HostsSpec(env).value)
  {
    if HostsSpec(env).Ok? && GetPubkey(cp, env.pubkey).Ok? {
      var hosts, pubkey := HostsSpec(env).value, GetPubkey(cp, env.pubkey).value;
      SearchEventsOnly(env, hosts, pubkey, 0);
      var acq := AcquireSpec(env, hosts, pubkey);
      if acq.result.Ok? {
        ConnectToDumpsClient(env, files, cp, hosts[acq.result.value], path, port);
      }
    }
  }

  /** A connect that does not raise ends attached, with the configuration in memory dumped to the client file. */
  predicate Dumped(files: map<string, Sections>, path: Value, client: Sections) {
    PathText(path).Ok? && PathText(path).value in files && files[PathText(path).value] == client && HasPeers(client)
  }

  lemma InstallDumpsClient(env: Env, files: map<string, Sections>, cp: Sections, host: string, server: Sections,
                           path: Value, port: Value)
    ensures var s := InstallSpec(env, files, cp, host, server, path, port);
            s.result.Ok? ==> s.result.value == Attached(host) && Dumped(s.files, path, InstallClient(env, cp, host, server, port))
  {
  }

  lemma ConnectToDumpsClient(env: Env, files: map<string, Sections>, cp: Sections, host: string, path: Value, port: Value)
    ensures var s := ConnectToSpec(env, files, cp, host, path, port);
            s.result.Ok? ==> s.result.value == Attached(host) && Dumped(s.files, path, ConnectToClient(env, cp, host, port))
  {
    AdoptDumpsClient(env, files, cp, host, ServerConf(env.exec(host, ShowConf), env.parseIni), path, port);
  }

  lemma AdoptDumpsClient(env: Env, files: map<string, Sections>, cp: Sections, host: string,
                         read: Result<Option<Sections>>, path: Value, port: Value)
    ensures var s := AdoptSpec(env, files, cp, host, read, path, port);
            s.result.Ok? ==> s.result.value == Attached(host) && Dumped(s.files, path, AdoptClient(env, cp, host, read, port))
  {
    if read.Ok? && read.value.Some? {
      InstallDumpsClient(env, files, cp, host, read.value.value, path, port);
    }
  }

  lemma ClaimAndConnectClientOutcome(env: Env, files: map<string, Sections>, cp: Sections, hosts: seq<string>,
                                     path: Value, port: Value)
    ensures var s, client := ClaimAndConnectSpec(env, files, cp, hosts, path, port), ClaimAndConnectClient(env, cp, hosts, port);
            && (s.result == Ok(NoOpenVpn) ==> client == cp)
            && (s.result.Ok? && !s.result.value.NoOpenVpn? ==> s.result.value.Attached? && Dumped(s.files, path, client))
  {
    if GetPubkey(cp, env.pubkey).Ok? {
      var acq := AcquireSpec(env, hosts, GetPubkey(cp, env.pubkey).value);
      if acq.result.Ok? {
        ConnectToDumpsClient(env, files, cp, hosts[acq.result.value], path, port);
      }
    }
  }

  /**
   * What the attach stage leaves in memory (lines 178-189 of `main`): when the
   * search fails quietly, the client configuration is as it was, since
   * `set_server` is never reached; when it attaches, the configuration in
   * memory is exactly the one dumped to the client file, and it has a peer.
   * The stage never ends in the terminate-mode exit.
   */
  lemma AttachClientOutcome(env: Env, files: map<string, Sections>, cp: Sections, path: Value, port: Value)
    ensures var s, client := AttachSpec(env, files, cp, path, port), AttachClient(env, cp, port);
            && (s.result == Ok(NoOpenVpn) ==> client == cp)
            && (s.result.Ok? ==> !s.result.value.Terminated?)
            && (s.result.Ok? && s.result.value.Attached? ==> Dumped(s.files, path, client))
  {
    if HostsSpec(env).Ok? {
      ClaimAndConnectClientOutcome(env, files, cp, HostsSpec(env).value, path, port);
    }
  }

  /** The whole swap, once the client configuration is read: unless it attaches, the configuration in memory is unchanged. */
  lemma SwapKeepsClientUnlessAttached(env: Env, files: map<string, Sections>, cp: Sections, path: Value, port: Value,
                                      terminate: bool)
    ensures var s := SwapConfSpec(env, files, cp, path, port, terminate);
            s.result.Ok? && !s.result.value.Attached? ==> SwapConfClient(env, files, cp, path, port, terminate) == cp
  {
    var down := TakeDownSpec(env, files, cp, path);
    if down.result.Ok? && !terminate {
      AttachClientOutcome(env, down.files, cp, path, port);
    }
  }

  /** The claim-and-connect stage that ends attached to `h`: what it claimed, read and wrote, in order. */
  lemma ClaimedAndConnected(env: Env, files: map<string, Sections>, cp: Sections, hosts: seq<string>,
                            path: Value, port: Value, h: string)
    requires ClaimAndConnectSpec(env, files, cp, hosts, path, port).result == Ok(Attached(h))
    ensures GetPubkey(cp, env.pubkey).Ok? && PathText(path).Ok?
    ensures var s, acq := ClaimAndConnectSpec(env, files, cp, hosts, path, port), AcquireSpec(env, hosts, GetPubkey(cp, env.pubkey).value);
            var server, p := ServerConf(env.exec(h, ShowConf), env.parseIni), PathText(path).value;
            && acq.result.Ok? && h == hosts[acq.result.value]
            && server.Ok? && server.value.Some? && GetPubkey(server.value.value, env.pubkey).Ok?
            && GetPubkey(server.value.value, env.pubkey).value.Some?
            && s.files == files[p := WithServer(cp, h, port, GetPubkey(server.value.value, env.pubkey).value)]
            && s.events == acq.events + [SshExec(h, ShowConf), WriteFile(p), Subprocess(QuickUp(p))]
            && Takes(s.events) == [h]
  {
    var pubkey := GetPubkey(cp, env.pubkey).value;
    var acq := AcquireSpec(env, hosts, pubkey);
    ConnectToOutcome(env, files, cp, hosts[acq.result.value], path, port);
    AcquireTakesWinner(env, hosts, pubkey, acq.result.value);
    var p := PathText(path).value;
    ConnectTakesNothing(h, p);
    TakesAppend(acq.events, [SshExec(h, ShowConf), WriteFile(p), Subprocess(QuickUp(p))]);
  }

  lemma ConnectTakesNothing(h: string, p: string)
    ensures Takes([SshExec(h, ShowConf), WriteFile(p), Subprocess(QuickUp(p))]) == []
  {
    NoTakes([SshExec(h, ShowConf), WriteFile(p), Subprocess(QuickUp(p))]);
  }

  /**
   * A run that attaches to `h` listed the pool, claimed `h` from it and took
   * no other host, read `h`'s server configuration again, and left the client
   * configuration pointed at `h` with the server's key in the file, written
   * just before the tunnel came up.
   */
  lemma AttachedOutcome(env: Env, files: map<string, Sections>, cp: Sections, path: Value, port: Value, h: string)
    requires AttachSpec(env, files, cp, path, port).result == Ok(Attached(h))
    ensures HostsSpec(env).Ok? && GetPubkey(cp, env.pubkey).Ok? && PathText(path).Ok?
    ensures var s, hosts, pubkey := AttachSpec(env, files, cp, path, port), HostsSpec(env).value, GetPubkey(cp, env.pubkey).value;
            var acq, server, p := AcquireSpec(env, hosts, pubkey), ServerConf(env.exec(h, ShowConf), env.parseIni), PathText(path).value;
            && acq.result.Ok? && h == hosts[acq.result.value]
            && server.Ok? && server.value.Some? && GetPubkey(server.value.value, env.pubkey).Ok?
            && GetPubkey(server.value.value, env.pubkey).value.Some?
            && s.files == files[p := WithServer(cp, h, port, GetPubkey(server.value.value, env.pubkey).value)]
            && s.events == [DescribeInstances(POOL_TAG, RUNNING)] + (acq.events + [SshExec(h, ShowConf), WriteFile(p), Subprocess(QuickUp(p))])
            && Takes(s.events) == [h]
  {
    var c := ClaimAndConnectSpec(env, files, cp, HostsSpec(env).value, path, port);
    ClaimedAndConnected(env, files, cp, HostsSpec(env).value, path, port, h);
    NoTakes([DescribeInstances(POOL_TAG, RUNNING)]);
    TakesAppend([DescribeInstances(POOL_TAG, RUNNING)], c.events);
  }

  /**
   * `dump` then `load`: once `vpn_connect` has written a configuration, the next
   * `get_client_config` reads back the same sections, whether or not the tunnel came up.
   */
  lemma DumpThenLoad(env: Env, next: Env, files: map<string, Sections>, path: Value, cp: Sections)
    ensures TunnelUpSpec(env, files, path, cp).events != [] <==> PathText(path).Ok?
    ensures PathText(path).Ok? ==>
              && ClientConfSpec(next, TunnelUpSpec(env, files, path, cp).files, path) == Ok(cp)
              && TunnelUpSpec(env, files, path, cp).events[0] == WriteFile(PathText(path).value)
    ensures PathText(path).Raise? ==> TunnelUpSpec(env, files, path, cp) == FileStep(Raise(TypeError), [], files)
  {
  }

  /**
   * The configuration a run leaves behind is what the next run reads back: for
   * a numeric port and a host without ':', the next run sees the peer and tears
   * down the very host this run attached to.
   */
  lemma NextRunTearsDownAttachedHost(env: Env, next: Env, files: map<string, Sections>, cp: Sections, path: Value,
                                     port: int, h: string)
    requires AttachSpec(env, files, cp, path, Num(port)).result == Ok(Attached(h))
    requires ':' !in h
    ensures var later := AttachSpec(env, files, cp, path, Num(port)).files;
            && ClientConfSpec(next, later, path).Ok?
            && HasPeers(ClientConfSpec(next, later, path).value)
            && GetEndpoint(ClientConfSpec(next, later, path).value) == Ok((h, port))
            && TakeDownSpec(next, later, ClientConfSpec(next, later, path).value, path) == TeardownSpec(next, later, h, path)
  {
    AttachedOutcome(env, files, cp, path, Num(port), h);
    var server := ServerConf(env.exec(h, ShowConf), env.parseIni);
    var key := GetPubkey(server.value.value, env.pubkey).value.value;
    SetServerAttaches(cp, h, Num(port), key);
    EndpointRoundTrip(cp, h, port, key);
    TakeDownTargetsSavedPeer(next, AttachSpec(env, files, cp, path, Num(port)).files,
                             WithServer(cp, h, Num(port), Some(key)), path);
  }

  /**
   * The settings of a run: with a configuration file holding an object, the
   * command line's `--terminate` flag wins over the file; without one, `conf`
   * is empty and every setting is None, whatever the command line says.
   */
  lemma CommandLineSettings(env: Env, cli: Cli)
    ensures var found := FirstOpen(Locations(DropUnset(Namespace(cli)), BaseDir(PROGRAM, env.configFs), env.configFs.cwd),
                                   env.configFs.open, 0);
            && (found.Found? && found.doc.Object? ==> Setting(env, cli, "terminate") == Flag(cli.terminate))
            && (!(found.Found? && found.doc.Object?) ==> forall key :: Setting(env, cli, key) == Null)
  {
    assert !IsPathKey("terminate");
  }
}
