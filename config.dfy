/**
 * The cluster declaration (init.yaml once decoded), the defaults that Load
 * fills in, and the validation that gates every run: both address ranges must
 * be IPv4 CIDR blocks that are neither identical nor overlapping, and every
 * server and agent needs a parseable IP address.
 */
module Config {
  import opened Wrappers
  import opened Text
  import opened Net

  datatype AssetSource = AssetSource(k3sBinary: string, k3sAirgapTarball: string)

  datatype Cluster = Cluster(
    flannelBackend: string,
    clusterCidr: string,
    serviceCidr: string,
    token: string,
    tlsSan: seq<string>,
    disable: seq<string>,
    dataDir: string,
    embeddedRegistry: bool,
    registries: string)

  datatype Node = Node(
    nodeName: string,
    ip: string,
    port: int,
    user: string,
    password: string,
    keyPath: string,
    labels: seq<string>)

  datatype Config = Config(cluster: Cluster, assets: AssetSource, servers: seq<Node>, agents: seq<Node>)

  const DefaultClusterCidr := "10.42.0.0/16"
  const DefaultServiceCidr := "10.43.0.0/16"
  const DefaultDataDir := "/var/lib/rancher/k3s"
  const DefaultFlannelBackend := "vxlan"
  const DefaultBinary := "k3s"
  const DefaultTarball := "k3s-airgap-images-amd64.tar.gz"
  const DefaultPort := 22

  datatype AddressError = EmptyAddress | InvalidAddress(ip: string)

  datatype ConfigError =
    | InvalidCidr(field: string, value: string)
    | SameCidr(value: string)
    | OverlappingCidrs(clusterCidr: string, serviceCidr: string)
    | BadNode(kind: string, name: string, cause: AddressError)

  function AddressMessage(e: AddressError): string {
    match e
    case EmptyAddress => "ip address is empty"
    case InvalidAddress(ip) => "invalid ip address: " + ip
  }

  /** The text Validate's error carries. */
  function Message(e: ConfigError): (m: string)
    ensures e.BadNode? ==> HasPrefix(m, e.kind + " " + e.name + ": ")
  {
    match e
    case InvalidCidr(field, value) =>
      "invalid " + field + ": " + value + " (error: invalid CIDR address: " + value + ")"
    case SameCidr(value) => "cluster-cidr and service-cidr cannot be the same: " + value
    case OverlappingCidrs(a, b) => "cluster-cidr (" + a + ") and service-cidr (" + b + ") overlap"
    case BadNode(kind, name, cause) => kind + " " + name + ": " + AddressMessage(cause)
  }

  // ---------------------------------------------------------------- Load

  function OrDefault(value: string, default: string): string {
    if value == "" then default else value
  }

  function WithDefaultPort(n: Node): Node {
    if n.port == 0 then n.(port := DefaultPort) else n
  }

  function WithDefaultPorts(nodes: seq<Node>): seq<Node> {
    seq(|nodes|, i requires 0 <= i < |nodes| => WithDefaultPort(nodes[i]))
  }

  /** The cluster settings with their defaults: the two ranges, the data dir and the flannel backend. */
  function ClusterDefaults(cl: Cluster): Cluster {
    cl.(clusterCidr := OrDefault(cl.clusterCidr, DefaultClusterCidr),
        serviceCidr := OrDefault(cl.serviceCidr, DefaultServiceCidr),
        dataDir := OrDefault(cl.dataDir, DefaultDataDir),
        flannelBackend := OrDefault(cl.flannelBackend, DefaultFlannelBackend))
  }

  function AssetDefaults(a: AssetSource): AssetSource {
    AssetSource(OrDefault(a.k3sBinary, DefaultBinary), OrDefault(a.k3sAirgapTarball, DefaultTarball))
  }

  /** The configuration Load hands on: every empty default-bearing field filled in, port 0 read as 22. */
  function WithDefaults(c: Config): Config {
    Config(ClusterDefaults(c.cluster), AssetDefaults(c.assets), WithDefaultPorts(c.servers), WithDefaultPorts(c.agents))
  }

  /** What defaulting promises: only empty fields and zero ports change, and nothing is left empty. */
  lemma DefaultsFillOnlyGaps(c: Config)
    ensures var d := WithDefaults(c);
      && d.cluster.clusterCidr != "" && d.cluster.serviceCidr != "" && d.cluster.dataDir != ""
      && d.cluster.flannelBackend != "" && d.assets.k3sBinary != "" && d.assets.k3sAirgapTarball != ""
      && (c.cluster.clusterCidr != "" ==> d.cluster.clusterCidr == c.cluster.clusterCidr)
      && (c.cluster.serviceCidr != "" ==> d.cluster.serviceCidr == c.cluster.serviceCidr)
      && (c.cluster.dataDir != "" ==> d.cluster.dataDir == c.cluster.dataDir)
      && (c.cluster.flannelBackend != "" ==> d.cluster.flannelBackend == c.cluster.flannelBackend)
      && (c.assets.k3sBinary != "" ==> d.assets.k3sBinary == c.assets.k3sBinary)
      && (c.assets.k3sAirgapTarball != "" ==> d.assets.k3sAirgapTarball == c.assets.k3sAirgapTarball)
      && d.cluster.token == c.cluster.token && d.cluster.tlsSan == c.cluster.tlsSan
      && d.cluster.disable == c.cluster.disable && d.cluster.embeddedRegistry == c.cluster.embeddedRegistry
      && d.cluster.registries == c.cluster.registries
      && |d.servers| == |c.servers| && |d.agents| == |c.agents|
      && (forall i :: 0 <= i < |d.servers| ==>
            d.servers[i].port != 0 && d.servers[i] == c.servers[i].(port := d.servers[i].port)
            && (c.servers[i].port != 0 ==> d.servers[i].port == c.servers[i].port))
      && (forall i :: 0 <= i < |d.agents| ==>
            d.agents[i].port != 0 && d.agents[i] == c.agents[i].(port := d.agents[i].port)
            && (c.agents[i].port != 0 ==> d.agents[i].port == c.agents[i].port))
  {
  }

  /** Loading an already loaded configuration changes nothing. */
  lemma DefaultsIdempotent(c: Config)
    ensures WithDefaults(WithDefaults(c)) == WithDefaults(c)
  {
    var d := WithDefaults(c);
    assert WithDefaultPorts(d.servers) == d.servers;
    assert WithDefaultPorts(d.agents) == d.agents;
  }

  /** The port loop of Load: every zero port becomes 22, in place. */
  method DefaultPorts(nodes: seq<Node>) returns (out: seq<Node>)
    ensures |out| == |nodes|
    ensures forall i :: 0 <= i < |nodes| ==>
      out[i] == (if nodes[i].port == 0 then nodes[i].(port := DefaultPort) else nodes[i])
  {
    out := nodes;
    var i := 0;
    while i < |out|
      invariant 0 <= i <= |out| == |nodes|
      invariant forall j :: 0 <= j < i ==> out[j] == WithDefaultPort(nodes[j])
      invariant forall j :: i <= j < |out| ==> out[j] == nodes[j]
    {
      if out[i].port == 0 {
        out := out[i := out[i].(port := DefaultPort)];
      }
      i := i + 1;
    }
  }

  /** The defaulting half of config.Load: every empty setting takes its default, every port 0 becomes 22. */
  method ApplyDefaults(decoded: Config) returns (c: Config)
    ensures c == WithDefaults(decoded)
  {
    var cluster := FillCluster(decoded.cluster);
    var assets := FillAssets(decoded.assets);
    var servers := DefaultPorts(decoded.servers);
    var agents := DefaultPorts(decoded.agents);
    assert servers == WithDefaultPorts(decoded.servers);
    assert agents == WithDefaultPorts(decoded.agents);
    c := Config(cluster, assets, servers, agents);
  }

  /** The cluster half of Load's defaulting, one empty setting at a time. */
  method FillCluster(decoded: Cluster) returns (cl: Cluster)
    ensures cl == ClusterDefaults(decoded)
  {
    cl := decoded;
    if cl.clusterCidr == "" {
      cl := cl.(clusterCidr := DefaultClusterCidr);
    }
    if cl.serviceCidr == "" {
      cl := cl.(serviceCidr := DefaultServiceCidr);
    }
    if cl.dataDir == "" {
      cl := cl.(dataDir := DefaultDataDir);
    }
    if cl.flannelBackend == "" {
      cl := cl.(flannelBackend := DefaultFlannelBackend);
    }
  }

  /** The asset half of Load's defaulting. */
  method FillAssets(decoded: AssetSource) returns (a: AssetSource)
    ensures a == AssetDefaults(decoded)
  {
    a := decoded;
    if a.k3sBinary == "" {
      a := a.(k3sBinary := DefaultBinary);
    }
    if a.k3sAirgapTarball == "" {
      a := a.(k3sAirgapTarball := DefaultTarball);
    }
  }

  /**
   * config.Load after the file has been read and decoded: fill in the
   * defaults, then validate. The decoded value is the parameter; reading the
   * file and YAML decoding are outside the model.
   */
  method Load(decoded: Config) returns (c: Config, err: Option<ConfigError>)
    ensures c == WithDefaults(decoded)
    ensures err == ValidationError(c)
  {
    c := ApplyDefaults(decoded);
    err := Validate(c);
  }

  // ---------------------------------------------------------------- Validate

  /** validateNodeIP */
  function ValidateNodeIP(n: Node): (r: Option<AddressError>)
    ensures r == None <==> ParseIP(n.ip).Some?
    ensures r == Some(EmptyAddress) <==> n.ip == ""
  {
    if n.ip == "" then Some(EmptyAddress)
    else if ParseIP(n.ip).None? then Some(InvalidAddress(n.ip))
    else None
  }

  /** The first node of the list whose address is bad, reported under its kind and name. */
  function FirstBadNode(nodes: seq<Node>, kind: string): Option<ConfigError> {
    if nodes == [] then None
    else match ValidateNodeIP(nodes[0])
      case Some(e) => Some(BadNode(kind, nodes[0].nodeName, e))
      case None => FirstBadNode(nodes[1..], kind)
  }

  /** The address-range checks, in Validate's order. */
  function CidrError(c: Cluster): Option<ConfigError> {
    match (ParseCIDR(c.clusterCidr), ParseCIDR(c.serviceCidr))
    case (None, _) => Some(InvalidCidr("cluster-cidr", c.clusterCidr))
    case (_, None) => Some(InvalidCidr("service-cidr", c.serviceCidr))
    case (Some(a), Some(b)) =>
      if CidrsEqual(a, b) then Some(SameCidr(c.clusterCidr))
      else if CidrsOverlap(a, b) then Some(OverlappingCidrs(c.clusterCidr, c.serviceCidr))
      else None
  }

  /** The error Validate reports, if any: ranges first, then servers in order, then agents in order. */
  function ValidationError(c: Config): Option<ConfigError> {
    if CidrError(c.cluster).Some? then CidrError(c.cluster)
    else if FirstBadNode(c.servers, "server").Some? then FirstBadNode(c.servers, "server")
    else FirstBadNode(c.agents, "agent")
  }

  lemma {:induction false} FirstBadNodeIsFirst(nodes: seq<Node>, kind: string, i: nat)
    requires i < |nodes|
    requires forall j :: 0 <= j < i ==> ValidateNodeIP(nodes[j]).None?
    requires ValidateNodeIP(nodes[i]).Some?
    ensures FirstBadNode(nodes, kind) == Some(BadNode(kind, nodes[i].nodeName, ValidateNodeIP(nodes[i]).value))
  {
    if i > 0 {
      FirstBadNodeIsFirst(nodes[1..], kind, i - 1);
    }
  }

  lemma {:induction false} FirstBadNodeNone(nodes: seq<Node>, kind: string)
    ensures FirstBadNode(nodes, kind).None? <==> forall j :: 0 <= j < |nodes| ==> ValidateNodeIP(nodes[j]).None?
  {
    if nodes != [] {
      FirstBadNodeNone(nodes[1..], kind);
      assert forall j :: 1 <= j < |nodes| ==> nodes[j] == nodes[1..][j - 1];
    }
  }

  /** An error about a node names the first bad node of its list and says what is wrong with it. */
  lemma {:induction false} FirstBadNodeFound(nodes: seq<Node>, kind: string)
    requires FirstBadNode(nodes, kind).Some?
    ensures exists i :: (0 <= i < |nodes| && (forall j :: 0 <= j < i ==> ValidateNodeIP(nodes[j]).None?)
      && ValidateNodeIP(nodes[i]).Some?
      && FirstBadNode(nodes, kind) == Some(BadNode(kind, nodes[i].nodeName, ValidateNodeIP(nodes[i]).value)))
  {
    if ValidateNodeIP(nodes[0]).None? {
      FirstBadNodeFound(nodes[1..], kind);
      var i :| 0 <= i < |nodes[1..]| && (forall j :: 0 <= j < i ==> ValidateNodeIP(nodes[1..][j]).None?)
        && ValidateNodeIP(nodes[1..][i]).Some?
        && FirstBadNode(nodes[1..], kind) == Some(BadNode(kind, nodes[1..][i].nodeName, ValidateNodeIP(nodes[1..][i]).value));
      assert forall j :: 0 <= j < i + 1 ==> ValidateNodeIP(nodes[j]).None? by {
        forall j | 0 <= j < i + 1 ensures ValidateNodeIP(nodes[j]).None? {
          if j > 0 { assert nodes[j] == nodes[1..][j - 1]; }
        }
      }
    }
  }

  /**
   * The range checks accept exactly the pairs of valid CIDR blocks that share
   * no address: identical and overlapping pairs are both refused.
   */
  lemma CidrCheckAcceptsDisjoint(c: Cluster)
    ensures CidrError(c).None? <==>
      && ParseCIDR(c.clusterCidr).Some? && ParseCIDR(c.serviceCidr).Some?
      && forall x: Quad :: !(Contains(ParseCIDR(c.clusterCidr).value, x) && Contains(ParseCIDR(c.serviceCidr).value, x))
  {
    if ParseCIDR(c.clusterCidr).Some? && ParseCIDR(c.serviceCidr).Some? {
      var a, b := ParseCIDR(c.clusterCidr).value, ParseCIDR(c.serviceCidr).value;
      ParseCIDRGivesPrefixNetwork(c.clusterCidr);
      ParseCIDRGivesPrefixNetwork(c.serviceCidr);
      OverlapIffSharedAddress(a, b);
      if CidrsEqual(a, b) {
        assert Contains(a, a.ip) && Contains(b, a.ip);
      }
    }
  }

  /** Two ranges that parse to the same block are reported as "the same", never as overlapping. */
  lemma SameReportedBeforeOverlap(c: Config)
    requires ParseCIDR(c.cluster.clusterCidr).Some?
    requires ParseCIDR(c.cluster.clusterCidr) == ParseCIDR(c.cluster.serviceCidr)
    ensures ValidationError(c) == Some(SameCidr(c.cluster.clusterCidr))
  {
  }

  /** Validate accepts a configuration iff its ranges are valid and disjoint and every node address parses. */
  lemma ValidationAccepts(c: Config)
    ensures ValidationError(c).None? <==>
      && CidrError(c.cluster).None?
      && (forall i :: 0 <= i < |c.servers| ==> ParseIP(c.servers[i].ip).Some?)
      && (forall i :: 0 <= i < |c.agents| ==> ParseIP(c.agents[i].ip).Some?)
  {
    FirstBadNodeNone(c.servers, "server");
    FirstBadNodeNone(c.agents, "agent");
  }

  /**
   * Config.Validate: range parsing, equality, overlap, then each server and
   * each agent in order; the first failure is returned. It reads the
   * configuration and changes nothing.
   */
  method Validate(c: Config) returns (err: Option<ConfigError>)
    ensures err == ValidationError(c)
  {
    var clusterNet := ParseCIDR(c.cluster.clusterCidr);
    if clusterNet.None? {
      return Some(InvalidCidr("cluster-cidr", c.cluster.clusterCidr));
    }
    var serviceNet := ParseCIDR(c.cluster.serviceCidr);
    if serviceNet.None? {
      return Some(InvalidCidr("service-cidr", c.cluster.serviceCidr));
    }
    var a, b := clusterNet.value, serviceNet.value;
    var same := a.ip == b.ip;
    if same {
      same := BytesEqual(a.mask, b.mask);
    }
    if same {
      return Some(SameCidr(c.cluster.clusterCidr));
    }
    if CidrsOverlap(a, b) {
      return Some(OverlappingCidrs(c.cluster.clusterCidr, c.cluster.serviceCidr));
    }
    err := CheckNodes(c.servers, "server");
    if err.Some? {
      return;
    }
    err := CheckNodes(c.agents, "agent");
  }

  /** One of Validate's node loops: the first node whose address is bad, reported under `kind`. */
  method CheckNodes(nodes: seq<Node>, kind: string) returns (err: Option<ConfigError>)
    ensures err == FirstBadNode(nodes, kind)
  {
    var i := 0;
    while i < |nodes|
      invariant 0 <= i <= |nodes|
      invariant forall j :: 0 <= j < i ==> ValidateNodeIP(nodes[j]).None?
    {
      var e := ValidateNodeIP(nodes[i]);
      if e.Some? {
        FirstBadNodeIsFirst(nodes, kind, i);
        return Some(BadNode(kind, nodes[i].nodeName, e.value));
      }
      i := i + 1;
    }
    FirstBadNodeNone(nodes, kind);
    return None;
  }
}
