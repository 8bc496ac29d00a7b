/**
 * The WireGuard configuration held by `WgConf`: a ConfigParser, modelled as a
 * map from section names to sections, each a map from option key to value.
 * ConfigParser stores every option key through `optionxform` (lower case), so
 * `cp['Peer']['Endpoint']` finds the key written as `'Endpoint'`.
 */
module WgConf {
  import opened Builtins

  type Section = map<string, string>
  type Sections = map<string, Section>

  const PEER := "Peer"
  const INTERFACE := "Interface"
  const FULL_TUNNEL := "0.0.0.0/0"
  const CLIENT_ADDRESS := "10.73.31.2/24"
  const CLIENT_DNS := "8.8.8.8"
  const NO_PEERS_MSG := "Cannot get endpoint of configuration with no peers"

  /** ConfigParser's `optionxform`. */
  function OptionKey(key: string): string {
    Lower(key)
  }

  lemma OptionKeys()
    ensures OptionKey("AllowedIPs") == "allowedips"
    ensures OptionKey("PublicKey") == "publickey"
    ensures OptionKey("Endpoint") == "endpoint"
    ensures OptionKey("PrivateKey") == "privatekey"
    ensures OptionKey("Address") == "address"
    ensures OptionKey("DNS") == "dns"
  {
    assert OptionKey("AllowedIPs") == "allowedips" by {
      var s := "AllowedIPs";
      assert forall i :: 0 <= i < |s| ==> LowerChar(s[i]) == "allowedips"[i];
    }
    assert OptionKey("PublicKey") == "publickey" by {
      var s := "PublicKey";
      assert forall i :: 0 <= i < |s| ==> LowerChar(s[i]) == "publickey"[i];
    }
    assert OptionKey("Endpoint") == "endpoint" by {
      var s := "Endpoint";
      assert forall i :: 0 <= i < |s| ==> LowerChar(s[i]) == "endpoint"[i];
    }
    assert OptionKey("PrivateKey") == "privatekey" by {
      var s := "PrivateKey";
      assert forall i :: 0 <= i < |s| ==> LowerChar(s[i]) == "privatekey"[i];
    }
    assert OptionKey("Address") == "address" by {
      var s := "Address";
      assert forall i :: 0 <= i < |s| ==> LowerChar(s[i]) == "address"[i];
    }
    assert OptionKey("DNS") == "dns" by {
      var s := "DNS";
      assert forall i :: 0 <= i < |s| ==> LowerChar(s[i]) == "dns"[i];
    }
  }

  /** `cp[section][key]`: a KeyError when the section or the option is absent. */
  function GetOption(cp: Sections, section: string, key: string): Result<string> {
    if section in cp && OptionKey(key) in cp[section] then Ok(cp[section][OptionKey(key)])
    else Raise(KeyError)
  }

  /** `has_peers`. */
  predicate HasPeers(cp: Sections) {
    PEER in cp
  }

  /** The `Peer` section `set_server(host, port, pubkey)` writes. */
  function PeerSection(host: string, port: Value, pubkey: string): Section {
    map[OptionKey("AllowedIPs") := FULL_TUNNEL,
        OptionKey("PublicKey") := pubkey,
        OptionKey("Endpoint") := host + ":" + PyStr(port)]
  }

  /**
   * What `set_server` leaves in `cp`. ConfigParser's `cp['Peer'] = {...}` first
   * clears the section and then stores the options in order; a `None` public key
   * fails its string check with a TypeError after AllowedIPs is stored.
   */
  function WithServer(cp: Sections, host: string, port: Value, pubkey: Option<string>): Sections {
    match pubkey
    case Some(k) => cp[PEER := PeerSection(host, port, k)]
    case None => cp[PEER := map[OptionKey("AllowedIPs") := FULL_TUNNEL]]
  }

  /** The endpoint text of `cp`'s peer. */
  function EndpointText(cp: Sections): Result<string> {
    if !HasPeers(cp) then Raise(VpnSwapperException(NO_PEERS_MSG)) else GetOption(cp, PEER, "Endpoint")
  }

  /** `get_endpoint`: split the endpoint on ':' and read parts 0 and 1, the second as an int. */
  function GetEndpoint(cp: Sections): (r: Result<(string, int)>)
    ensures !HasPeers(cp) ==> r == Raise(VpnSwapperException(NO_PEERS_MSG))
    ensures r.Ok? ==> HasPeers(cp) && OptionKey("Endpoint") in cp[PEER]
  {
    match EndpointText(cp)
    case Raise(e) => Raise(e)
    case Ok(text) =>
      var parts := Split(text, ':');
      if |parts| < 2 then Raise(IndexError)
      else
        match ParseInt(parts[1])
        case None => Raise(ValueError)
        case Some(port) => Ok((parts[0], port))
  }

  /**
   * `has_peers` is the guard of `get_endpoint`: the swapper's "no peers" error
   * comes exactly from a configuration without a `Peer` section; with one, a
   * missing or malformed endpoint fails with a Python error instead.
   */
  lemma PeersGuardEndpoint(cp: Sections)
    ensures HasPeers(cp) <==> "Peer" in cp
    ensures GetEndpoint(cp) == Raise(VpnSwapperException(NO_PEERS_MSG)) <==> !HasPeers(cp)
    ensures HasPeers(cp) && GetEndpoint(cp).Raise? ==> GetEndpoint(cp).error in {KeyError, IndexError, ValueError}
  {
  }

  /** `_create_blank_conf`, given what `wg genkey` printed. */
  function BlankConf(genkey: Completed): Sections {
    if |genkey.stderr| != 0 then map[]
    else map[INTERFACE := map[OptionKey("PrivateKey") := genkey.stdout,
                              OptionKey("Address") := CLIENT_ADDRESS,
                              OptionKey("DNS") := CLIENT_DNS]]
  }

  /**
   * `get_pubkey`: feed the interface's private key to `wg pubkey` (the oracle
   * `wgPubkey`); None when it writes to stderr, its stdout stripped otherwise.
   */
  function GetPubkey(cp: Sections, wgPubkey: string -> Completed): (r: Result<Option<string>>)
    ensures r.Ok? <==> GetOption(cp, INTERFACE, "PrivateKey").Ok?
    ensures r.Ok? ==> (r.value.None? <==> |wgPubkey(GetOption(cp, INTERFACE, "PrivateKey").value).stderr| != 0)
    ensures r.Ok? && r.value.Some? ==>
              var key, out := r.value.value, wgPubkey(GetOption(cp, INTERFACE, "PrivateKey").value).stdout;
              && key == Strip(out)
              && (key != [] ==> !IsSpace(key[0]) && !IsSpace(key[|key| - 1])) && |key| <= |out|
  {
    match GetOption(cp, INTERFACE, "PrivateKey")
    case Raise(e) => Raise(e)
    case Ok(privkey) =>
      var p := wgPubkey(privkey);
      if |p.stderr| != 0 then Ok(None) else Ok(Some(Strip(p.stdout)))
  }

  /** After `set_server` with a key, the configuration has a peer, whatever it held before. */
  lemma SetServerAttaches(cp: Sections, host: string, port: Value, pubkey: string)
    ensures HasPeers(WithServer(cp, host, port, Some(pubkey)))
    ensures WithServer(cp, host, port, Some(pubkey))[PEER]
            == map["allowedips" := FULL_TUNNEL, "publickey" := pubkey, "endpoint" := host + ":" + PyStr(port)]
    ensures forall s :: s in cp && s != PEER ==>
              s in WithServer(cp, host, port, Some(pubkey)) && WithServer(cp, host, port, Some(pubkey))[s] == cp[s]
    ensures WithServer(cp, host, port, Some(pubkey)).Keys == cp.Keys + {PEER}
  {
    OptionKeys();
  }

  /** A second `set_server` replaces the whole peer: equal arguments change nothing, others win. */
  lemma SetServerOverwrites(cp: Sections, h1: string, p1: Value, k1: Option<string>,
                            h2: string, p2: Value, k2: Option<string>)
    ensures WithServer(WithServer(cp, h1, p1, k1), h2, p2, k2) == WithServer(cp, h2, p2, k2)
  {
  }

  /** `get_endpoint` gives back the host and the numeric port `set_server` stored, for a host without ':'. */
  lemma {:induction false} EndpointRoundTrip(cp: Sections, host: string, port: int, pubkey: string)
    requires ':' !in host
    ensures GetEndpoint(WithServer(cp, host, Num(port), Some(pubkey))) == Ok((host, port))
  {
    var c := WithServer(cp, host, Num(port), Some(pubkey));
    var digits := IntToString(port);
    assert GetOption(c, PEER, "Endpoint") == Ok(host + ":" + digits);
    IntStringHasNo(port, ':');
    SplitAt(host, digits, ':');
    SplitNone(digits, ':');
    assert host + ":" + digits == host + [':'] + digits;
    IntStringRoundTrip(port);
  }

  /** A host with ':' in it (an IPv6 address) does not survive the endpoint round trip: part 1 is empty. */
  lemma ColonHostIsMisread(cp: Sections, pubkey: string, port: int)
    ensures GetEndpoint(WithServer(cp, "fe80::1", Num(port), Some(pubkey))) == Raise(ValueError)
  {
    var c := WithServer(cp, "fe80::1", Num(port), Some(pubkey));
    var tail := "1:" + IntToString(port);
    var text := "fe80::1" + ":" + IntToString(port);
    assert GetOption(c, PEER, "Endpoint") == Ok(text);
    assert text == "fe80" + [':'] + ([] + [':'] + tail);
    SplitAt("fe80", [] + [':'] + tail, ':');
    SplitAt([], tail, ':');
    assert Split(text, ':')[1] == [];
    assert Strip([]) == [];
  }

  /** A blank configuration never has a peer; it has an interface exactly when `wg genkey` succeeded. */
  lemma BlankConfShape(genkey: Completed)
    ensures !HasPeers(BlankConf(genkey))
    ensures |genkey.stderr| != 0 ==> BlankConf(genkey) == map[]
    ensures |genkey.stderr| == 0 ==>
              BlankConf(genkey).Keys == {INTERFACE}
              && BlankConf(genkey)[INTERFACE]
                 == map["privatekey" := genkey.stdout, "address" := CLIENT_ADDRESS, "dns" := CLIENT_DNS]
  {
    OptionKeys();
  }

  /** A configuration whose `wg genkey` failed has no private key, so `get_pubkey` raises KeyError on it. */
  lemma BlankWithoutKeyCannotDerive(genkey: Completed, wgPubkey: string -> Completed)
    requires |genkey.stderr| != 0
    ensures GetPubkey(BlankConf(genkey), wgPubkey) == Raise(KeyError)
  {
  }

  /** The tunnel configuration object; `cp` is its ConfigParser. */
  class WgConf {
    var cp: Sections

    /** `WgConf(cp)`, as `load` and `loads` build it from a parsed configuration. */
    constructor (cp: Sections)
      ensures this.cp == cp
    {
      this.cp := cp;
    }

    /** `WgConf()`: a blank configuration, given what `wg genkey` printed. */
    constructor Blank(genkey: Completed)
      ensures cp == BlankConf(genkey)
      ensures !HasPeers(cp)
    {
      cp := BlankConf(genkey);
      BlankConfShape(genkey);
    }

    /** `set_server(host, port, pubkey)`: (over)write the `Peer` section. */
    method SetServer(host: string, port: Value, pubkey: Option<string>) returns (r: Outcome)
      modifies this
      ensures cp == WithServer(old(cp), host, port, pubkey)
      ensures r == if pubkey.Some? then Pass else Fail(TypeError)
      ensures HasPeers(cp)
    {
      match pubkey
      case Some(k) =>
        cp := cp[PEER := PeerSection(host, port, k)];
        r := Pass;
      case None =>
        cp := cp[PEER := map[OptionKey("AllowedIPs") := FULL_TUNNEL]];
        r := Fail(TypeError);
    }
  }
}
