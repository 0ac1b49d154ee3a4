/**
 * What k3air writes into /etc/systemd/system on every node: the k3s command
 * line of a server or an agent (role flags first, optional flags in a fixed
 * order and only when set, the token last), the fixed ten-line systemd unit
 * around it, the inputs of the uninstall script template, and the unit that
 * formatBytes picks for the sizes it logs.
 */
module Units {
  import opened Wrappers
  import opened Text
  import opened Config

  // ---------------------------------------------------------------- flags

  /** The k3s flags k3air passes. */
  datatype FlagName =
    | ClusterInit | Server | FlannelBackend | ClusterCidr | ServiceCidr | DataDir
    | NodeName | EmbeddedRegistry | TlsSan | Disable | NodeLabel | Token

  /** How each flag is written on the command line. */
  function Spelling(n: FlagName): string {
    match n
    case ClusterInit => "--cluster-init"
    case Server => "--server"
    case FlannelBackend => "--flannel-backend"
    case ClusterCidr => "--cluster-cidr"
    case ServiceCidr => "--service-cidr"
    case DataDir => "--data-dir"
    case NodeName => "--node-name"
    case EmbeddedRegistry => "--embedded-registry"
    case TlsSan => "--tls-san"
    case Disable => "--disable"
    case NodeLabel => "--node-label"
    case Token => "--token"
  }

  /** One command-line flag: its name and, unless it is a switch, its value. */
  datatype Flag = Flag(name: FlagName, value: Option<string>)

  /** The words a list of flags puts on the command line, in order. */
  function Words(flags: seq<Flag>): seq<string> {
    if flags == [] then []
    else
      [Spelling(flags[0].name)] + (if flags[0].value.Some? then [flags[0].value.value] else []) + Words(flags[1..])
  }

  /** A flag that is passed only when its value is set. */
  function Entry(name: FlagName, v: string): seq<Flag> {
    if v == "" then [] else [Flag(name, Some(v))]
  }

  /** A switch that is passed only when it is on. */
  function Switch(name: FlagName, on: bool): seq<Flag> {
    if on then [Flag(name, None)] else []
  }

  /** A flag repeated once per list entry, empty entries skipped. */
  function Repeated(name: FlagName, vs: seq<string>): seq<Flag> {
    if vs == [] then [] else Repeated(name, vs[..|vs| - 1]) + Entry(name, vs[|vs| - 1])
  }

  /** The address a joining node is given for the primary's API server. */
  function ServerURL(primaryIP: string): string {
    "https://" + primaryIP + ":6443"
  }

  /** The first flag of a server: the primary initialises the cluster, the others join it. */
  function RoleFlags(primaryIP: string, isPrimary: bool): seq<Flag> {
    if isPrimary then [Flag(ClusterInit, None)] else [Flag(Server, Some(ServerURL(primaryIP)))]
  }

  /** The single-valued server options and the registry switch. */
  function SingleOptions(c: Cluster, node: Node): seq<Flag> {
    Entry(FlannelBackend, c.flannelBackend)
    + Entry(ClusterCidr, c.clusterCidr)
    + Entry(ServiceCidr, c.serviceCidr)
    + Entry(DataDir, c.dataDir)
    + Entry(NodeName, node.nodeName)
    + Switch(EmbeddedRegistry, c.embeddedRegistry)
  }

  /** The list-valued server options. */
  function ListOptions(c: Cluster, node: Node): seq<Flag> {
    Repeated(TlsSan, c.tlsSan) + Repeated(Disable, c.disable) + Repeated(NodeLabel, node.labels)
  }

  /** The flags of `k3s server`, in the order serverServiceContent emits them. */
  function ServerFlags(c: Cluster, node: Node, primaryIP: string, isPrimary: bool): seq<Flag> {
    RoleFlags(primaryIP, isPrimary) + (SingleOptions(c, node) + ListOptions(c, node)) + [Flag(Token, Some(c.token))]
  }

  /** The optional agent flags, between the server address and the token. */
  function AgentOptions(c: Cluster, node: Node): seq<Flag> {
    Entry(DataDir, c.dataDir)
    + Entry(NodeName, node.nodeName)
    + Repeated(NodeLabel, node.labels)
  }

  /** The flags of `k3s agent`, in the order agentServiceContent emits them. */
  function AgentFlags(c: Cluster, node: Node, primaryIP: string): seq<Flag> {
    [Flag(Server, Some(ServerURL(primaryIP)))] + AgentOptions(c, node) + [Flag(Token, Some(c.token))]
  }

  const K3sPath := "/usr/local/bin/k3s"

  /** The argument list of a command line: the subcommand, then the words of the flags. */
  function Arguments(subcommand: string, flags: seq<Flag>): seq<string> {
    [subcommand] + Words(flags)
  }

  /** The ExecStart command: the k3s binary, then the arguments, separated by single spaces. */
  function CommandLine(subcommand: string, flags: seq<Flag>): string {
    K3sPath + " " + Join(Arguments(subcommand, flags), " ")
  }

  // ---------------------------------------------------------------- facts about flag lists

  /** The names of the flags, in order. */
  function Names(flags: seq<Flag>): seq<FlagName> {
    seq(|flags|, i requires 0 <= i < |flags| => flags[i].name)
  }

  /** The values given to the flag `name`, in order. */
  function ValuesOf(flags: seq<Flag>, name: FlagName): seq<string> {
    if flags == [] then []
    else
      (if flags[0].name == name && flags[0].value.Some? then [flags[0].value.value] else [])
      + ValuesOf(flags[1..], name)
  }

  /** The entries of a list that are not empty, in order. */
  function NonEmpty(vs: seq<string>): seq<string> {
    if vs == [] then [] else NonEmpty(vs[..|vs| - 1]) + (if vs[|vs| - 1] == "" then [] else [vs[|vs| - 1]])
  }

  lemma {:induction false} WordsAppend(a: seq<Flag>, b: seq<Flag>)
    ensures Words(a + b) == Words(a) + Words(b)
  {
    if a == [] {
      assert a + b == b;
    } else {
      var h := [Spelling(a[0].name)] + (if a[0].value.Some? then [a[0].value.value] else []);
      assert (a + b)[0] == a[0];
      assert (a + b)[1..] == a[1..] + b;
      WordsAppend(a[1..], b);
      assert Words(a + b) == h + (Words(a[1..]) + Words(b));
      AppendAssoc(h, Words(a[1..]), Words(b));
    }
  }

  lemma {:induction false} ValuesOfAppend(a: seq<Flag>, b: seq<Flag>, name: FlagName)
    ensures ValuesOf(a + b, name) == ValuesOf(a, name) + ValuesOf(b, name)
  {
    if a == [] {
      assert a + b == b;
    } else {
      var h := if a[0].name == name && a[0].value.Some? then [a[0].value.value] else [];
      assert (a + b)[0] == a[0];
      assert (a + b)[1..] == a[1..] + b;
      ValuesOfAppend(a[1..], b, name);
      assert ValuesOf(a + b, name) == h + (ValuesOf(a[1..], name) + ValuesOf(b, name));
      AppendAssoc(h, ValuesOf(a[1..], name), ValuesOf(b, name));
    }
  }

  lemma NamesAppend(a: seq<Flag>, b: seq<Flag>)
    ensures Names(a + b) == Names(a) + Names(b)
  {
    assert Names(a + b) == Names(a) + Names(b);
  }

  lemma ValuesOfSingle(f: Flag, name: FlagName)
    ensures ValuesOf([f], name) == if f.name == name && f.value.Some? then [f.value.value] else []
  {
    assert [f][1..] == [];
  }

  lemma ValuesOfEntry(n: FlagName, v: string, name: FlagName)
    ensures ValuesOf(Entry(n, v), name) == if n == name then NonEmpty([v]) else []
  {
    assert [v][..0] == [];
    if v != "" {
      ValuesOfSingle(Flag(n, Some(v)), name);
    }
  }

  /** A repeated flag carries exactly the non-empty entries, and nothing for any other name. */
  lemma {:induction false} ValuesOfRepeated(n: FlagName, vs: seq<string>, name: FlagName)
    ensures ValuesOf(Repeated(n, vs), name) == if n == name then NonEmpty(vs) else []
  {
    if vs != [] {
      ValuesOfRepeated(n, vs[..|vs| - 1], name);
      ValuesOfAppend(Repeated(n, vs[..|vs| - 1]), Entry(n, vs[|vs| - 1]), name);
      ValuesOfEntry(n, vs[|vs| - 1], name);
    }
  }

  /** A repeated flag is only ever that flag, with a value. */
  lemma {:induction false} RepeatedNames(n: FlagName, vs: seq<string>)
    ensures forall i :: 0 <= i < |Repeated(n, vs)| ==> Repeated(n, vs)[i] == Flag(n, Repeated(n, vs)[i].value)
    ensures forall i :: 0 <= i < |Names(Repeated(n, vs))| ==> Names(Repeated(n, vs))[i] == n
  {
    if vs != [] {
      var init: seq<Flag>, last: seq<Flag> := Repeated(n, vs[..|vs| - 1]), Entry(n, vs[|vs| - 1]);
      RepeatedNames(n, vs[..|vs| - 1]);
      forall i | 0 <= i < |init + last| ensures (init + last)[i] == Flag(n, (init + last)[i].value) {
        if i < |init| {
          assert (init + last)[i] == init[i];
        }
      }
    }
  }

  /**
   * What a server is given for each flag, looked up by name: the primary's
   * address for --server unless it is the primary itself, each single setting
   * when it is non-empty, the non-empty list entries in order, and the token
   * always.
   */
  function ServerSetting(c: Cluster, node: Node, primaryIP: string, isPrimary: bool, name: FlagName): seq<string> {
    match name
    case Server => if isPrimary then [] else [ServerURL(primaryIP)]
    case FlannelBackend => NonEmpty([c.flannelBackend])
    case ClusterCidr => NonEmpty([c.clusterCidr])
    case ServiceCidr => NonEmpty([c.serviceCidr])
    case DataDir => NonEmpty([c.dataDir])
    case NodeName => NonEmpty([node.nodeName])
    case TlsSan => NonEmpty(c.tlsSan)
    case Disable => NonEmpty(c.disable)
    case NodeLabel => NonEmpty(node.labels)
    case Token => [c.token]
    case _ => []
  }

  /**
   * Every value flag of a server appears exactly when its setting is
   * non-empty, with that setting as value; list entries keep their order and
   * empty ones are skipped; the token is passed exactly once, even when empty.
   */
  lemma ServerFlagValues(c: Cluster, node: Node, primaryIP: string, isPrimary: bool, name: FlagName)
    ensures ValuesOf(ServerFlags(c, node, primaryIP, isPrimary), name) == ServerSetting(c, node, primaryIP, isPrimary, name)
  {
    var r, t := RoleFlags(primaryIP, isPrimary), [Flag(Token, Some(c.token))];
    ServerValuesSplit(c, node, primaryIP, isPrimary, name);
    ValuesOfSingle(r[0], name);
    ValuesOfSingle(t[0], name);
    SingleOptionValues(c, node, name);
    ListOptionValues(c, node, name);
    ServerSettingParts(c, node, primaryIP, isPrimary, name, ValuesOf(r, name), ValuesOf(SingleOptions(c, node), name),
                       ValuesOf(ListOptions(c, node), name), ValuesOf(t, name));
  }

  lemma ServerValuesSplit(c: Cluster, node: Node, primaryIP: string, isPrimary: bool, name: FlagName)
    ensures ValuesOf(ServerFlags(c, node, primaryIP, isPrimary), name)
      == ValuesOf(RoleFlags(primaryIP, isPrimary), name)
         + (ValuesOf(SingleOptions(c, node), name) + ValuesOf(ListOptions(c, node), name))
         + ValuesOf([Flag(Token, Some(c.token))], name)
  {
    var r, s, l, t := RoleFlags(primaryIP, isPrimary), SingleOptions(c, node), ListOptions(c, node), [Flag(Token, Some(c.token))];
    ValuesOfAppend(r, s + l, name);
    ValuesOfAppend(s, l, name);
    ValuesOfAppend(r + (s + l), t, name);
  }

  lemma ServerSettingParts(c: Cluster, node: Node, primaryIP: string, isPrimary: bool, name: FlagName,
                           vr: seq<string>, vs: seq<string>, vl: seq<string>, vt: seq<string>)
    requires vr == if name == Server && !isPrimary then [ServerURL(primaryIP)] else []
    requires vs == if name in {FlannelBackend, ClusterCidr, ServiceCidr, DataDir, NodeName} then ServerSetting(c, node, "", true, name) else []
    requires vl == if name in {TlsSan, Disable, NodeLabel} then ServerSetting(c, node, "", true, name) else []
    requires vt == if name == Token then [c.token] else []
    ensures vr + (vs + vl) + vt == ServerSetting(c, node, primaryIP, isPrimary, name)
  {
    match name
    case Server =>
    case Token =>
    case TlsSan =>
    case Disable =>
    case NodeLabel =>
    case FlannelBackend =>
    case ClusterCidr =>
    case ServiceCidr =>
    case DataDir =>
    case NodeName =>
    case ClusterInit =>
    case EmbeddedRegistry =>
  }

  lemma SingleOptionValues(c: Cluster, node: Node, name: FlagName)
    ensures ValuesOf(SingleOptions(c, node), name) ==
        if name in {FlannelBackend, ClusterCidr, ServiceCidr, DataDir, NodeName}
        then ServerSetting(c, node, "", true, name) else []
  {
    SingleValuesSplit(c, node, name);
    ValuesOfEntry(FlannelBackend, c.flannelBackend, name);
    ValuesOfEntry(ClusterCidr, c.clusterCidr, name);
    ValuesOfEntry(ServiceCidr, c.serviceCidr, name);
    ValuesOfEntry(DataDir, c.dataDir, name);
    ValuesOfEntry(NodeName, node.nodeName, name);
    ValuesOfSwitch(EmbeddedRegistry, c.embeddedRegistry, name);
  }

  /** The values of the single options, block by block. */
  lemma SingleValuesSplit(c: Cluster, node: Node, name: FlagName)
    ensures ValuesOf(SingleOptions(c, node), name)
      == ValuesOf(Entry(FlannelBackend, c.flannelBackend), name) + ValuesOf(Entry(ClusterCidr, c.clusterCidr), name)
         + ValuesOf(Entry(ServiceCidr, c.serviceCidr), name) + ValuesOf(Entry(DataDir, c.dataDir), name)
         + ValuesOf(Entry(NodeName, node.nodeName), name) + ValuesOf(Switch(EmbeddedRegistry, c.embeddedRegistry), name)
  {
    var e1, e2, e3 := Entry(FlannelBackend, c.flannelBackend), Entry(ClusterCidr, c.clusterCidr), Entry(ServiceCidr, c.serviceCidr);
    var e4, e5 := Entry(DataDir, c.dataDir), Entry(NodeName, node.nodeName);
    var sw := Switch(EmbeddedRegistry, c.embeddedRegistry);
    ValuesOfAppend(e1, e2, name);
    ValuesOfAppend(e1 + e2, e3, name);
    ValuesOfAppend(e1 + e2 + e3, e4, name);
    ValuesOfAppend(e1 + e2 + e3 + e4, e5, name);
    ValuesOfAppend(e1 + e2 + e3 + e4 + e5, sw, name);
  }

  /** A switch carries no value. */
  lemma ValuesOfSwitch(n: FlagName, on: bool, name: FlagName)
    ensures ValuesOf(Switch(n, on), name) == []
  {
    if on {
      ValuesOfSingle(Flag(n, None), name);
    }
  }

  lemma ListOptionValues(c: Cluster, node: Node, name: FlagName)
    ensures ValuesOf(ListOptions(c, node), name) == if name in {TlsSan, Disable, NodeLabel} then ServerSetting(c, node, "", true, name) else []
  {
    var r1, r2, r3 := Repeated(TlsSan, c.tlsSan), Repeated(Disable, c.disable), Repeated(NodeLabel, node.labels);
    ValuesOfAppend(r1, r2, name);
    ValuesOfAppend(r1 + r2, r3, name);
    ValuesOfRepeated(TlsSan, c.tlsSan, name);
    ValuesOfRepeated(Disable, c.disable, name);
    ValuesOfRepeated(NodeLabel, node.labels, name);
  }

  /** What an agent is given for each flag: its server address, data dir, node name, labels and token. */
  function AgentSetting(c: Cluster, node: Node, primaryIP: string, name: FlagName): seq<string> {
    match name
    case Server => [ServerURL(primaryIP)]
    case DataDir => NonEmpty([c.dataDir])
    case NodeName => NonEmpty([node.nodeName])
    case NodeLabel => NonEmpty(node.labels)
    case Token => [c.token]
    case _ => []
  }

  lemma AgentFlagValues(c: Cluster, node: Node, primaryIP: string, name: FlagName)
    ensures ValuesOf(AgentFlags(c, node, primaryIP), name) == AgentSetting(c, node, primaryIP, name)
  {
    var s, t := Flag(Server, Some(ServerURL(primaryIP))), Flag(Token, Some(c.token));
    AgentValuesSplit(c, node, primaryIP, name);
    ValuesOfSingle(s, name);
    ValuesOfEntry(DataDir, c.dataDir, name);
    ValuesOfEntry(NodeName, node.nodeName, name);
    ValuesOfRepeated(NodeLabel, node.labels, name);
    ValuesOfSingle(t, name);
    AgentSettingParts(c, node, primaryIP, name, ValuesOf([s], name), ValuesOf(Entry(DataDir, c.dataDir), name),
                      ValuesOf(Entry(NodeName, node.nodeName), name), ValuesOf(Repeated(NodeLabel, node.labels), name),
                      ValuesOf([t], name));
  }

  lemma AgentSettingParts(c: Cluster, node: Node, primaryIP: string, name: FlagName,
                          vs: seq<string>, vd: seq<string>, vn: seq<string>, vl: seq<string>, vt: seq<string>)
    requires vs == if name == Server then [ServerURL(primaryIP)] else []
    requires vd == if name == DataDir then NonEmpty([c.dataDir]) else []
    requires vn == if name == NodeName then NonEmpty([node.nodeName]) else []
    requires vl == if name == NodeLabel then NonEmpty(node.labels) else []
    requires vt == if name == Token then [c.token] else []
    ensures vs + vd + vn + vl + vt == AgentSetting(c, node, primaryIP, name)
  {
    match name
    case Server =>
    case Token =>
    case DataDir =>
    case NodeName =>
    case NodeLabel =>
    case ClusterInit =>
    case FlannelBackend =>
    case ClusterCidr =>
    case ServiceCidr =>
    case EmbeddedRegistry =>
    case TlsSan =>
    case Disable =>
  }

  /** The values of the agent flags, block by block. */
  lemma AgentValuesSplit(c: Cluster, node: Node, primaryIP: string, name: FlagName)
    ensures ValuesOf(AgentFlags(c, node, primaryIP), name)
      == ValuesOf([Flag(Server, Some(ServerURL(primaryIP)))], name)
         + ValuesOf(Entry(DataDir, c.dataDir), name) + ValuesOf(Entry(NodeName, node.nodeName), name)
         + ValuesOf(Repeated(NodeLabel, node.labels), name)
         + ValuesOf([Flag(Token, Some(c.token))], name)
  {
    var s := [Flag(Server, Some(ServerURL(primaryIP)))];
    var e4, e5 := Entry(DataDir, c.dataDir), Entry(NodeName, node.nodeName);
    var r3 := Repeated(NodeLabel, node.labels);
    var t := [Flag(Token, Some(c.token))];
    assert AgentFlags(c, node, primaryIP) == s + e4 + e5 + r3 + t;
    ValuesOfAppend(s, e4, name);
    ValuesOfAppend(s + e4, e5, name);
    ValuesOfAppend(s + e4 + e5, r3, name);
    ValuesOfAppend(s + e4 + e5 + r3, t, name);
  }

  lemma NamesEntry(n: FlagName, v: string)
    ensures Names(Entry(n, v)) == if v == "" then [] else [n]
  {
  }

  lemma NamesSwitch(n: FlagName, on: bool)
    ensures Names(Switch(n, on)) == if on then [n] else []
  {
  }

  lemma NamesSingle(f: Flag)
    ensures Names([f]) == [f.name]
  {
  }

  /** The single-valued server options and the registry switch are in rank order, ranks 1 to 6. */
  lemma SingleOptionNames(c: Cluster, node: Node)
    ensures InServerOrder(Names(SingleOptions(c, node))) && RanksWithin(Names(SingleOptions(c, node)), 1, 6)
  {
    var e1, e2, e3 := Entry(FlannelBackend, c.flannelBackend), Entry(ClusterCidr, c.clusterCidr), Entry(ServiceCidr, c.serviceCidr);
    var e4, e5 := Entry(DataDir, c.dataDir), Entry(NodeName, node.nodeName);
    var sw := Switch(EmbeddedRegistry, c.embeddedRegistry);
    assert InServerOrder(Names(e1 + e2 + e3)) && RanksWithin(Names(e1 + e2 + e3), 1, 3) by {
      EntryBlock(FlannelBackend, c.flannelBackend);
      EntryBlock(ClusterCidr, c.clusterCidr);
      EntryBlock(ServiceCidr, c.serviceCidr);
      OrderedFlags(e1, e2, 1, 1, 2, 2);
      OrderedFlags(e1 + e2, e3, 1, 2, 3, 3);
    }
    assert InServerOrder(Names(e1 + e2 + e3 + e4 + e5)) && RanksWithin(Names(e1 + e2 + e3 + e4 + e5), 1, 5) by {
      EntryBlock(DataDir, c.dataDir);
      EntryBlock(NodeName, node.nodeName);
      OrderedFlags(e1 + e2 + e3, e4, 1, 3, 4, 4);
      OrderedFlags(e1 + e2 + e3 + e4, e5, 1, 4, 5, 5);
    }
    NamesSwitch(EmbeddedRegistry, c.embeddedRegistry);
    OneName(Names(sw), EmbeddedRegistry);
    OrderedFlags(e1 + e2 + e3 + e4 + e5, sw, 1, 5, 6, 6);
  }

  /** --embedded-registry is among the single options exactly when the cluster enables the registry. */
  lemma RegistrySwitch(c: Cluster, node: Node)
    ensures EmbeddedRegistry in Names(SingleOptions(c, node)) <==> c.embeddedRegistry
  {
    var e1, e2, e3 := Entry(FlannelBackend, c.flannelBackend), Entry(ClusterCidr, c.clusterCidr), Entry(ServiceCidr, c.serviceCidr);
    var e4, e5 := Entry(DataDir, c.dataDir), Entry(NodeName, node.nodeName);
    var sw := Switch(EmbeddedRegistry, c.embeddedRegistry);
    NamesEntry(FlannelBackend, c.flannelBackend);
    NamesEntry(ClusterCidr, c.clusterCidr);
    NamesEntry(ServiceCidr, c.serviceCidr);
    NamesEntry(DataDir, c.dataDir);
    NamesEntry(NodeName, node.nodeName);
    NamesSwitch(EmbeddedRegistry, c.embeddedRegistry);
    NamesAppend(e1, e2);
    NamesAppend(e1 + e2, e3);
    NamesAppend(e1 + e2 + e3, e4);
    NamesAppend(e1 + e2 + e3 + e4, e5);
    NamesAppend(e1 + e2 + e3 + e4 + e5, sw);
  }

  /** The list-valued server options are in rank order, ranks 7 to 9. */
  lemma ListOptionNames(c: Cluster, node: Node)
    ensures InServerOrder(Names(ListOptions(c, node))) && RanksWithin(Names(ListOptions(c, node)), 7, 9)
  {
    var r1, r2, r3 := Repeated(TlsSan, c.tlsSan), Repeated(Disable, c.disable), Repeated(NodeLabel, node.labels);
    assert InServerOrder(Names(r1 + r2)) && RanksWithin(Names(r1 + r2), 7, 8) by {
      RepeatedBlock(TlsSan, c.tlsSan);
      RepeatedBlock(Disable, c.disable);
      OrderedFlags(r1, r2, 7, 7, 8, 8);
    }
    RepeatedBlock(NodeLabel, node.labels);
    OrderedFlags(r1 + r2, r3, 7, 8, 9, 9);
  }

  /** The optional server flags never repeat the role flags or the token, and keep their rank order. */
  lemma ServerOptionNames(c: Cluster, node: Node)
    ensures RanksWithin(Names(SingleOptions(c, node) + ListOptions(c, node)), 1, 9)
    ensures EmbeddedRegistry in Names(SingleOptions(c, node) + ListOptions(c, node)) <==> c.embeddedRegistry
    ensures InServerOrder(Names(SingleOptions(c, node) + ListOptions(c, node)))
  {
    var s, l := SingleOptions(c, node), ListOptions(c, node);
    SingleOptionNames(c, node);
    ListOptionNames(c, node);
    RegistrySwitch(c, node);
    OrderedFlags(s, l, 1, 6, 7, 9);
    NamesAppend(s, l);
    OutsideRanks(Names(l), EmbeddedRegistry, 7, 9);
  }

  /** The optional agent flags are only the data dir, the node name and the labels. */
  lemma AgentOptionNames(c: Cluster, node: Node)
    ensures forall n :: n in Names(AgentOptions(c, node)) ==> n == DataDir || n == NodeName || n == NodeLabel
  {
    var e4, e5 := Entry(DataDir, c.dataDir), Entry(NodeName, node.nodeName);
    var r3 := Repeated(NodeLabel, node.labels);
    NamesEntry(DataDir, c.dataDir);
    NamesEntry(NodeName, node.nodeName);
    RepeatedNames(NodeLabel, node.labels);
    NamesAppend(e4, e5);
    NamesAppend(e4 + e5, r3);
  }

  /**
   * The role rules of a server: the primary starts with --cluster-init and is
   * given no --server; every other server starts with --server pointing at the
   * primary and has no --cluster-init. --embedded-registry is there exactly
   * when the cluster asks for it.
   */
  lemma ServerRoleFlags(c: Cluster, node: Node, primaryIP: string, isPrimary: bool)
    ensures var fl := ServerFlags(c, node, primaryIP, isPrimary);
      && (isPrimary ==> fl[0] == Flag(ClusterInit, None) && Server !in Names(fl))
      && (!isPrimary ==> fl[0] == Flag(Server, Some(ServerURL(primaryIP))) && ClusterInit !in Names(fl))
      && (EmbeddedRegistry in Names(fl) <==> c.embeddedRegistry)
  {
    var r, o, t := RoleFlags(primaryIP, isPrimary), (SingleOptions(c, node) + ListOptions(c, node)), [Flag(Token, Some(c.token))];
    ServerOptionNames(c, node);
    NamesAppend(r, o);
    NamesAppend(r + o, t);
    NamesSingle(r[0]);
    NamesSingle(t[0]);
  }

  /** An agent is never given --cluster-init, --flannel-backend, the ranges, --tls-san, --disable or --embedded-registry. */
  lemma AgentFlagNames(c: Cluster, node: Node, primaryIP: string)
    ensures var fl := AgentFlags(c, node, primaryIP);
      && fl[0] == Flag(Server, Some(ServerURL(primaryIP)))
      && forall n :: n in Names(fl) ==> n == Server || n == DataDir || n == NodeName || n == NodeLabel || n == Token
  {
    var s, o, t := [Flag(Server, Some(ServerURL(primaryIP)))], AgentOptions(c, node), [Flag(Token, Some(c.token))];
    AgentOptionNames(c, node);
    NamesAppend(s, o);
    NamesAppend(s + o, t);
    NamesSingle(s[0]);
    NamesSingle(t[0]);
  }

  /** The token is the last flag of a server's command line, and no other flag is --token. */
  lemma ServerTokenLast(c: Cluster, node: Node, primaryIP: string, isPrimary: bool)
    ensures var fl := ServerFlags(c, node, primaryIP, isPrimary);
      fl[|fl| - 1] == Flag(Token, Some(c.token)) && Token !in Names(fl[..|fl| - 1])
  {
    var r, o := RoleFlags(primaryIP, isPrimary), (SingleOptions(c, node) + ListOptions(c, node));
    var fl := ServerFlags(c, node, primaryIP, isPrimary);
    assert fl[..|fl| - 1] == r + o;
    ServerOptionNames(c, node);
    OutsideRanks(Names(o), Token, 1, 9);
    NamesAppend(r, o);
    NamesSingle(r[0]);
  }

  /** The token is the last flag of an agent's command line, and no other flag is --token. */
  lemma AgentTokenLast(c: Cluster, node: Node, primaryIP: string)
    ensures var fl := AgentFlags(c, node, primaryIP);
      fl[|fl| - 1] == Flag(Token, Some(c.token)) && Token !in Names(fl[..|fl| - 1])
  {
    var s, ao := [Flag(Server, Some(ServerURL(primaryIP)))], AgentOptions(c, node);
    var al := AgentFlags(c, node, primaryIP);
    assert al[..|al| - 1] == s + ao;
    AgentOptionNames(c, node);
    NamesAppend(s, ao);
    NamesSingle(s[0]);
  }

  /** The position of a server flag in the fixed emission order. */
  function ServerRank(name: FlagName): nat {
    match name
    case ClusterInit => 0
    case Server => 0
    case FlannelBackend => 1
    case ClusterCidr => 2
    case ServiceCidr => 3
    case DataDir => 4
    case NodeName => 5
    case EmbeddedRegistry => 6
    case TlsSan => 7
    case Disable => 8
    case NodeLabel => 9
    case Token => 10
  }

  predicate InServerOrder(names: seq<FlagName>) {
    forall i, j :: 0 <= i < j < |names| ==> ServerRank(names[i]) <= ServerRank(names[j])
  }

  /** Every name in the list has a rank between lo and hi. */
  predicate RanksWithin(names: seq<FlagName>, lo: nat, hi: nat) {
    forall i :: 0 <= i < |names| ==> lo <= ServerRank(names[i]) <= hi
  }

  /** A name whose rank lies outside the bounds is not in the list. */
  lemma OutsideRanks(names: seq<FlagName>, n: FlagName, lo: nat, hi: nat)
    requires RanksWithin(names, lo, hi) && !(lo <= ServerRank(n) <= hi)
    ensures n !in names
  {
  }

  /** A list made of one name only is in rank order, at that name's rank. */
  lemma OneName(names: seq<FlagName>, n: FlagName)
    requires forall i :: 0 <= i < |names| ==> names[i] == n
    ensures InServerOrder(names) && RanksWithin(names, ServerRank(n), ServerRank(n))
  {
  }

  lemma EntryBlock(n: FlagName, v: string)
    ensures InServerOrder(Names(Entry(n, v))) && RanksWithin(Names(Entry(n, v)), ServerRank(n), ServerRank(n))
  {
    NamesEntry(n, v);
    OneName(Names(Entry(n, v)), n);
  }

  lemma RepeatedBlock(n: FlagName, vs: seq<string>)
    ensures InServerOrder(Names(Repeated(n, vs))) && RanksWithin(Names(Repeated(n, vs)), ServerRank(n), ServerRank(n))
  {
    RepeatedNames(n, vs);
    OneName(Names(Repeated(n, vs)), n);
  }

  /** Two lists in rank order, the ranks of the first no higher than those of the second, make one list in rank order. */
  lemma OrderedConcat(a: seq<FlagName>, b: seq<FlagName>, lo: nat, m1: nat, m2: nat, hi: nat)
    requires lo <= m1 <= m2 <= hi
    requires InServerOrder(a) && RanksWithin(a, lo, m1)
    requires InServerOrder(b) && RanksWithin(b, m2, hi)
    ensures InServerOrder(a + b) && RanksWithin(a + b, lo, hi)
  {
    forall i, j | 0 <= i < j < |a + b| ensures ServerRank((a + b)[i]) <= ServerRank((a + b)[j]) {
      if j < |a| {
        assert (a + b)[i] == a[i] && (a + b)[j] == a[j];
      } else if i < |a| {
        assert (a + b)[i] == a[i] && (a + b)[j] == b[j - |a|];
      } else {
        assert (a + b)[i] == b[i - |a|] && (a + b)[j] == b[j - |a|];
      }
    }
    forall i | 0 <= i < |a + b| ensures lo <= ServerRank((a + b)[i]) <= hi {
      if i < |a| {
        assert (a + b)[i] == a[i];
      } else {
        assert (a + b)[i] == b[i - |a|];
      }
    }
  }

  /** OrderedConcat on the names of two flag lists. */
  lemma OrderedFlags(a: seq<Flag>, b: seq<Flag>, lo: nat, m1: nat, m2: nat, hi: nat)
    requires lo <= m1 <= m2 <= hi
    requires InServerOrder(Names(a)) && RanksWithin(Names(a), lo, m1)
    requires InServerOrder(Names(b)) && RanksWithin(Names(b), m2, hi)
    ensures InServerOrder(Names(a + b)) && RanksWithin(Names(a + b), lo, hi)
  {
    NamesAppend(a, b);
    OrderedConcat(Names(a), Names(b), lo, m1, m2, hi);
  }

  /** Server flags always come out in the one fixed order, whatever is set. */
  lemma ServerFlagOrder(c: Cluster, node: Node, primaryIP: string, isPrimary: bool)
    ensures InServerOrder(Names(ServerFlags(c, node, primaryIP, isPrimary)))
  {
    var r, o, t := RoleFlags(primaryIP, isPrimary), (SingleOptions(c, node) + ListOptions(c, node)), [Flag(Token, Some(c.token))];
    ServerOptionNames(c, node);
    NamesSingle(r[0]);
    NamesSingle(t[0]);
    OneName(Names(r), r[0].name);
    OneName(Names(t), Token);
    OrderedFlags(r, o, 0, 0, 1, 9);
    OrderedFlags(r + o, t, 0, 9, 10, 10);
  }

  // ---------------------------------------------------------------- command lines

  lemma {:induction false} JoinCons(a: string, xs: seq<string>, sep: string)
    requires xs != []
    ensures Join([a] + xs, sep) == a + sep + Join(xs, sep)
  {
    assert ([a] + xs)[1..] == xs;
  }

  lemma {:induction false} JoinSnoc(xs: seq<string>, x: string, sep: string)
    requires xs != []
    ensures Join(xs + [x], sep) == Join(xs, sep) + sep + x
  {
    if |xs| == 1 {
      assert xs + [x] == [xs[0], x];
      assert [xs[0], x][1..] == [x];
    } else {
      JoinSnoc(xs[1..], x, sep);
      assert (xs + [x])[1..] == xs[1..] + [x];
    }
  }

  /**
   * The argument lists start as the role rules say: `server --cluster-init`
   * for the primary, `server --server https://<primary>:6443` for the other
   * servers and `agent --server https://<primary>:6443` for agents.
   */
  lemma ArgumentsStart(c: Cluster, node: Node, primaryIP: string)
    ensures Arguments("server", ServerFlags(c, node, primaryIP, true))[..2] == ["server", "--cluster-init"]
    ensures Arguments("server", ServerFlags(c, node, primaryIP, false))[..3] == ["server", "--server", ServerURL(primaryIP)]
    ensures Arguments("agent", AgentFlags(c, node, primaryIP))[..3] == ["agent", "--server", ServerURL(primaryIP)]
  {
    var p := ServerFlags(c, node, primaryIP, true);
    assert p == [p[0]] + p[1..];
    WordsAppend([p[0]], p[1..]);
    WordsSingle(p[0]);
    var s := ServerFlags(c, node, primaryIP, false);
    assert s == [s[0]] + s[1..];
    WordsAppend([s[0]], s[1..]);
    WordsSingle(s[0]);
    var a := AgentFlags(c, node, primaryIP);
    assert a == [a[0]] + a[1..];
    WordsAppend([a[0]], a[1..]);
    WordsSingle(a[0]);
  }

  lemma WordsSingle(f: Flag)
    ensures Words([f]) == [Spelling(f.name)] + (if f.value.Some? then [f.value.value] else [])
  {
    assert [f][1..] == [];
  }

  lemma WordsEntry(n: FlagName, v: string)
    ensures Words(Entry(n, v)) == if v == "" then [] else [Spelling(n), v]
  {
    if v != "" {
      WordsSingle(Flag(n, Some(v)));
    }
  }

  lemma WordsSwitch(n: FlagName, on: bool)
    ensures Words(Switch(n, on)) == if on then [Spelling(n)] else []
  {
    if on {
      WordsSingle(Flag(n, None));
    }
  }

  // ---------------------------------------------------------------- the unit file

  /** The ten lines of the unit, without their line ends. */
  function UnitLines(name: string, exec: string): seq<string> {
    ["[Unit]", "Description=" + name, "After=network.target",
     "[Service]", "Type=notify", "ExecStart=" + exec, "Restart=always", "LimitNOFILE=1048576",
     "[Install]", "WantedBy=multi-user.target"]
  }

  /** Lines, each ended by a newline. */
  function Lines(ls: seq<string>): string {
    if ls == [] then "" else ls[0] + "\n" + Lines(ls[1..])
  }

  function UnitText(name: string, exec: string): string {
    Lines(UnitLines(name, exec))
  }

  /** unitService, written as the sequence of WriteString calls on a builder. */
  method UnitService(name: string, exec: string) returns (text: string)
    ensures text == UnitText(name, exec)
  {
    var b := "";
    b := b + "[Unit]\n";
    b := b + ("Description=" + name + "\n");
    b := b + "After=network.target\n";
    b := b + "[Service]\n";
    b := b + "Type=notify\n";
    assert b == Lines(UnitLines(name, exec)[..5]) by { FirstWrites(name, exec); }
    b := b + ("ExecStart=" + exec + "\n");
    b := b + "Restart=always\n";
    b := b + "LimitNOFILE=1048576\n";
    b := b + "[Install]\n";
    b := b + "WantedBy=multi-user.target\n";
    LastWrites(name, exec, Lines(UnitLines(name, exec)[..5]));
    text := b;
  }

  /** The first five writes produce the first five lines. */
  lemma FirstWrites(name: string, exec: string)
    ensures Lines(UnitLines(name, exec)[..5]) == "" + "[Unit]\n" + ("Description=" + name + "\n") + "After=network.target\n" + "[Service]\n" + "Type=notify\n"
  {
    var ls := UnitLines(name, exec);
    assert ls[..0] == [];
    LinesPrefix(ls, 0);
    assert "[Unit]\n" == "[Unit]" + "\n";
    LinesPrefix(ls, 1);
    LinesPrefix(ls, 2);
    assert "After=network.target\n" == "After=network.target" + "\n";
    LinesPrefix(ls, 3);
    assert "[Service]\n" == "[Service]" + "\n";
    LinesPrefix(ls, 4);
    assert "Type=notify\n" == "Type=notify" + "\n";
  }

  /** The last five writes, after the first five lines, produce the whole unit. */
  lemma LastWrites(name: string, exec: string, head: string)
    requires head == Lines(UnitLines(name, exec)[..5])
    ensures UnitText(name, exec) == head + ("ExecStart=" + exec + "\n") + "Restart=always\n" + "LimitNOFILE=1048576\n" + "[Install]\n" + "WantedBy=multi-user.target\n"
  {
    var ls := UnitLines(name, exec);
    LinesPrefix(ls, 5);
    LinesPrefix(ls, 6);
    assert "Restart=always\n" == "Restart=always" + "\n";
    LinesPrefix(ls, 7);
    assert "LimitNOFILE=1048576\n" == "LimitNOFILE=1048576" + "\n";
    LinesPrefix(ls, 8);
    assert "[Install]\n" == "[Install]" + "\n";
    LinesPrefix(ls, 9);
    assert ls[..10] == ls;
    assert "WantedBy=multi-user.target\n" == "WantedBy=multi-user.target" + "\n";
  }

  lemma {:induction false} LinesSnoc(ls: seq<string>, l: string)
    ensures Lines(ls + [l]) == Lines(ls) + (l + "\n")
  {
    if ls == [] {
      assert [l][1..] == [];
    } else {
      LinesSnoc(ls[1..], l);
      assert (ls + [l])[1..] == ls[1..] + [l];
    }
  }

  lemma LinesPrefix(ls: seq<string>, k: nat)
    requires k < |ls|
    ensures Lines(ls[..k + 1]) == Lines(ls[..k]) + (ls[k] + "\n")
  {
    assert ls[..k + 1] == ls[..k] + [ls[k]];
    LinesSnoc(ls[..k], ls[k]);
  }

  /** Splitting newline-terminated lines at newlines gives the lines back, then one empty piece. */
  lemma {:induction false} SplitLines(ls: seq<string>)
    requires forall i :: 0 <= i < |ls| ==> '\n' !in ls[i]
    ensures Split(Lines(ls), '\n') == ls + [""]
  {
    if ls == [] {
    } else {
      SplitLines(ls[1..]);
      SplitAtSep(ls[0], Lines(ls[1..]), '\n');
      assert ls[0] + "\n" + Lines(ls[1..]) == ls[0] + ['\n'] + Lines(ls[1..]);
      assert ls == [ls[0]] + ls[1..];
    }
  }

  /**
   * The unit has exactly the ten fixed lines, with the name on the
   * Description line and the command on the ExecStart line, whenever neither
   * holds a line break.
   */
  lemma UnitLayout(name: string, exec: string)
    requires '\n' !in name && '\n' !in exec
    ensures var lines := Split(UnitText(name, exec), '\n');
      && |lines| == 11 && lines[..10] == UnitLines(name, exec) && lines[10] == ""
      && lines[1] == "Description=" + name && lines[5] == "ExecStart=" + exec
  {
    var ls := UnitLines(name, exec);
    assert '\n' !in ls[1] && '\n' !in ls[5];
    SplitLines(ls);
    assert (ls + [""])[..10] == ls;
  }

  /** Different names or commands give different units: the unit text determines both. */
  lemma UnitTextInjective(n1: string, e1: string, n2: string, e2: string)
    requires '\n' !in n1 && '\n' !in e1 && '\n' !in n2 && '\n' !in e2
    requires UnitText(n1, e1) == UnitText(n2, e2)
    ensures n1 == n2 && e1 == e2
  {
    UnitLayout(n1, e1);
    UnitLayout(n2, e2);
    var d1, d2 := "Description=" + n1, "Description=" + n2;
    assert n1 == d1[12..] && n2 == d2[12..];
    var x1, x2 := "ExecStart=" + e1, "ExecStart=" + e2;
    assert e1 == x1[10..] && e2 == x2[10..];
  }

  // ---------------------------------------------------------------- the builders

  lemma AppendAssoc<T>(a: seq<T>, b: seq<T>, c: seq<T>)
    ensures a + b + c == a + (b + c)
  {
  }

  /** One of the `if value != ""` appends: `--name value` when the value is set. */
  method AppendEntry(args: seq<string>, name: FlagName, v: string) returns (out: seq<string>)
    ensures out == args + Words(Entry(name, v))
  {
    WordsEntry(name, v);
    if v != "" {
      out := args + [Spelling(name), v];
    } else {
      out := args;
    }
  }

  /** One of the flag loops: `--name v` for each non-empty entry v, in order. */
  /** One more list entry appends the words of its entry. */
  lemma RepeatedStep(args: seq<string>, name: FlagName, vs: seq<string>, i: nat)
    requires i < |vs|
    ensures args + Words(Repeated(name, vs[..i + 1])) == args + Words(Repeated(name, vs[..i])) + Words(Entry(name, vs[i]))
  {
    assert vs[..i + 1][..i] == vs[..i];
    assert Repeated(name, vs[..i + 1]) == Repeated(name, vs[..i]) + Entry(name, vs[i]);
    WordsSnoc(args, Repeated(name, vs[..i]), Entry(name, vs[i]));
  }

  method AppendRepeated(args: seq<string>, name: FlagName, vs: seq<string>) returns (out: seq<string>)
    ensures out == args + Words(Repeated(name, vs))
  {
    out := args;
    var i := 0;
    while i < |vs|
      invariant 0 <= i <= |vs|
      invariant out == args + Words(Repeated(name, vs[..i]))
    {
      RepeatedStep(args, name, vs, i);
      out := AppendEntry(out, name, vs[i]);
      i := i + 1;
    }
    assert vs[..i] == vs;
  }

  /** The words of one more block of flags, after any head. */
  lemma WordsSnoc(head: seq<string>, acc: seq<Flag>, e: seq<Flag>)
    ensures head + Words(acc + e) == head + Words(acc) + Words(e)
  {
    WordsAppend(acc, e);
    AppendAssoc(head, Words(acc), Words(e));
  }

  /** The words of the single options, block by block. */
  lemma SingleWords(head: seq<string>, c: Cluster, node: Node)
    ensures head + Words(SingleOptions(c, node))
      == head + Words(Entry(FlannelBackend, c.flannelBackend)) + Words(Entry(ClusterCidr, c.clusterCidr))
         + Words(Entry(ServiceCidr, c.serviceCidr)) + Words(Entry(DataDir, c.dataDir))
         + Words(Entry(NodeName, node.nodeName)) + Words(Switch(EmbeddedRegistry, c.embeddedRegistry))
  {
    var e1, e2, e3 := Entry(FlannelBackend, c.flannelBackend), Entry(ClusterCidr, c.clusterCidr), Entry(ServiceCidr, c.serviceCidr);
    var e4, e5 := Entry(DataDir, c.dataDir), Entry(NodeName, node.nodeName);
    var sw := Switch(EmbeddedRegistry, c.embeddedRegistry);
    WordsSnoc(head, e1 + e2 + e3 + e4 + e5, sw);
    WordsSnoc(head, e1 + e2 + e3 + e4, e5);
    WordsSnoc(head, e1 + e2 + e3, e4);
    WordsSnoc(head, e1 + e2, e3);
    WordsSnoc(head, e1, e2);
  }

  /** The words of the server flags, block by block in the order they are appended. */
  lemma ServerWords(c: Cluster, node: Node, primaryIP: string, isPrimary: bool)
    ensures Arguments("server", ServerFlags(c, node, primaryIP, isPrimary))
      == ["server"] + Words(RoleFlags(primaryIP, isPrimary)) + Words(SingleOptions(c, node))
         + Words(Repeated(TlsSan, c.tlsSan)) + Words(Repeated(Disable, c.disable)) + Words(Repeated(NodeLabel, node.labels))
         + Words([Flag(Token, Some(c.token))])
  {
    var h, r, t := ["server"], RoleFlags(primaryIP, isPrimary), [Flag(Token, Some(c.token))];
    var so, r1, r2, r3 := SingleOptions(c, node), Repeated(TlsSan, c.tlsSan), Repeated(Disable, c.disable), Repeated(NodeLabel, node.labels);
    ServerFlagsRegrouped(c, node, primaryIP, isPrimary);
    WordsSnoc(h, r + so + r1 + r2 + r3, t);
    WordsSnoc(h, r + so + r1 + r2, r3);
    WordsSnoc(h, r + so + r1, r2);
    WordsSnoc(h, r + so, r1);
    WordsSnoc(h, r, so);
  }

  /** The words of the agent flags, block by block in the order they are appended. */
  lemma AgentWords(c: Cluster, node: Node, primaryIP: string)
    ensures Arguments("agent", AgentFlags(c, node, primaryIP))
      == ["agent"] + Words([Flag(Server, Some(ServerURL(primaryIP)))]) + Words(Entry(DataDir, c.dataDir))
         + Words(Entry(NodeName, node.nodeName)) + Words(Repeated(NodeLabel, node.labels))
         + Words([Flag(Token, Some(c.token))])
  {
    var h, s, t := ["agent"], [Flag(Server, Some(ServerURL(primaryIP)))], [Flag(Token, Some(c.token))];
    var e4, e5, r3 := Entry(DataDir, c.dataDir), Entry(NodeName, node.nodeName), Repeated(NodeLabel, node.labels);
    assert AgentFlags(c, node, primaryIP) == s + e4 + e5 + r3 + t;
    WordsSnoc(h, s + e4 + e5 + r3, t);
    WordsSnoc(h, s + e4 + e5, r3);
    WordsSnoc(h, s + e4, e5);
    WordsSnoc(h, s, e4);
  }

  /** The single-valued options and the registry switch, appended as serverServiceContent does. */
  method AppendSingleOptions(args: seq<string>, c: Cluster, node: Node) returns (out: seq<string>)
    ensures out == args + Words(SingleOptions(c, node))
  {
    out := AppendEntry(args, FlannelBackend, c.flannelBackend);
    out := AppendEntry(out, ClusterCidr, c.clusterCidr);
    out := AppendEntry(out, ServiceCidr, c.serviceCidr);
    out := AppendEntry(out, DataDir, c.dataDir);
    out := AppendEntry(out, NodeName, node.nodeName);
    ghost var before := out;
    if c.embeddedRegistry {
      out := out + ["--embedded-registry"];
    }
    assert out == before + Words(Switch(EmbeddedRegistry, c.embeddedRegistry)) by {
      WordsSwitch(EmbeddedRegistry, c.embeddedRegistry);
      if !c.embeddedRegistry {
        assert before + [] == before;
      }
    }
    SingleWords(args, c, node);
  }

  /** The server flags, regrouped in the order serverServiceContent appends them. */
  lemma ServerFlagsRegrouped(c: Cluster, node: Node, primaryIP: string, isPrimary: bool)
    ensures ServerFlags(c, node, primaryIP, isPrimary)
      == RoleFlags(primaryIP, isPrimary) + SingleOptions(c, node)
         + Repeated(TlsSan, c.tlsSan) + Repeated(Disable, c.disable) + Repeated(NodeLabel, node.labels)
         + [Flag(Token, Some(c.token))]
  {
    var r, so, t := RoleFlags(primaryIP, isPrimary), SingleOptions(c, node), [Flag(Token, Some(c.token))];
    var r1, r2, r3 := Repeated(TlsSan, c.tlsSan), Repeated(Disable, c.disable), Repeated(NodeLabel, node.labels);
    assert ListOptions(c, node) == r1 + r2 + r3;
    AppendAssoc(so, r1 + r2, r3);
    AppendAssoc(so, r1, r2);
    AppendAssoc(r, so + r1 + r2, r3);
    AppendAssoc(r, so + r1, r2);
    AppendAssoc(r, so, r1);
  }

  /** The argument list serverServiceContent builds before the token is added. */
  method ServerArguments(c: Cluster, node: Node, primaryIP: string, isPrimary: bool) returns (args: seq<string>)
    ensures |args| > 0 && args[0] == "server"
    ensures args + ["--token", c.token] == Arguments("server", ServerFlags(c, node, primaryIP, isPrimary))
  {
    if isPrimary {
      args := ["server", "--cluster-init"];
    } else {
      args := ["server", "--server", ServerURL(primaryIP)];
    }
    assert args == ["server"] + Words(RoleFlags(primaryIP, isPrimary)) by {
      WordsSingle(RoleFlags(primaryIP, isPrimary)[0]);
    }
    args := AppendSingleOptions(args, c, node);
    args := AppendRepeated(args, TlsSan, c.tlsSan);
    args := AppendRepeated(args, Disable, c.disable);
    args := AppendRepeated(args, NodeLabel, node.labels);
    WordsSingle(Flag(Token, Some(c.token)));
    ServerWords(c, node, primaryIP, isPrimary);
  }

  /** Appending " --token <token>" to the joined arguments joins the arguments with the token pair added. */
  lemma TokenAppended(args: seq<string>, token: string)
    requires args != []
    ensures K3sPath + " " + Join(args, " ") + " --token " + token == K3sPath + " " + Join(args + ["--token", token], " ")
  {
    var h, j := K3sPath + " ", Join(args, " ");
    assert args + ["--token", token] == args + ["--token"] + [token];
    JoinSnoc(args, "--token", " ");
    JoinSnoc(args + ["--token"], token, " ");
    assert j + " " + "--token" + " " == j + " --token ";
    AppendAssoc(h, j + " --token ", token);
    AppendAssoc(h, j, " --token ");
  }

  /** serverServiceContent: the unit `k3s` running `k3s server` with the server flags. */
  method ServerServiceContent(c: Cluster, node: Node, primaryIP: string, isPrimary: bool) returns (unit: string)
    ensures unit == UnitText("k3s", CommandLine("server", ServerFlags(c, node, primaryIP, isPrimary)))
  {
    var args := ServerArguments(c, node, primaryIP, isPrimary);
    var cmd := K3sPath + " " + Join(args, " ") + " --token " + c.token;
    TokenAppended(args, c.token);
    unit := UnitService("k3s", cmd);
  }

  /** The argument list agentServiceContent builds, token included. */
  method AgentArguments(c: Cluster, node: Node, primaryIP: string) returns (args: seq<string>)
    ensures args == Arguments("agent", AgentFlags(c, node, primaryIP))
  {
    args := ["agent", "--server", ServerURL(primaryIP)];
    assert args == ["agent"] + Words([Flag(Server, Some(ServerURL(primaryIP)))]) by {
      WordsSingle(Flag(Server, Some(ServerURL(primaryIP))));
    }
    args := AppendEntry(args, DataDir, c.dataDir);
    args := AppendEntry(args, NodeName, node.nodeName);
    args := AppendRepeated(args, NodeLabel, node.labels);
    ghost var before := args;
    args := args + ["--token", c.token];
    assert args == before + Words([Flag(Token, Some(c.token))]) by {
      WordsSingle(Flag(Token, Some(c.token)));
    }
    AgentWords(c, node, primaryIP);
  }

  /** agentServiceContent: the unit `k3s-agent` running `k3s agent` with the agent flags. */
  method AgentServiceContent(c: Cluster, node: Node, primaryIP: string) returns (unit: string)
    ensures unit == UnitText("k3s-agent", CommandLine("agent", AgentFlags(c, node, primaryIP)))
  {
    var args := AgentArguments(c, node, primaryIP);
    var cmd := K3sPath + " " + Join(args, " ");
    unit := UnitService("k3s-agent", cmd);
  }

  // ---------------------------------------------------------------- units by their inputs

  /** The inputs a unit file is generated from: a server's or an agent's. */
  datatype UnitSpec =
    | ServerUnit(c: Cluster, node: Node, primaryIP: string, isPrimary: bool)
    | AgentUnit(c: Cluster, node: Node, primaryIP: string)

  /** The text serverServiceContent / agentServiceContent generate for those inputs. */
  function UnitContent(u: UnitSpec): string {
    match u
    case ServerUnit(c, node, primaryIP, isPrimary) => UnitText("k3s", CommandLine("server", ServerFlags(c, node, primaryIP, isPrimary)))
    case AgentUnit(c, node, primaryIP) => UnitText("k3s-agent", CommandLine("agent", AgentFlags(c, node, primaryIP)))
  }

  // ---------------------------------------------------------------- uninstall script inputs

  /** The values the uninstall template is rendered with. */
  datatype UninstallData = UninstallData(dataDir: string, isAgent: bool)

  /** uninstallScriptContent / agentUninstallScriptContent: the configured data dir, or k3s's default. */
  function UninstallInputs(c: Cluster, isAgent: bool): (d: UninstallData)
    ensures d.dataDir != "" && d.isAgent == isAgent
    ensures c.dataDir != "" ==> d.dataDir == c.dataDir
    ensures c.dataDir == "" ==> d.dataDir == DefaultDataDir
  {
    UninstallData(if c.dataDir == "" then "/var/lib/rancher/k3s" else c.dataDir, isAgent)
  }

  /** The uninstall script removes the same data directory the service runs with once the defaults are in. */
  lemma UninstallMatchesService(cfg: Config, node: Node, primaryIP: string, isPrimary: bool)
    ensures var c := WithDefaults(cfg).cluster;
      ValuesOf(ServerFlags(c, node, primaryIP, isPrimary), DataDir) == [UninstallInputs(c, false).dataDir]
      && ValuesOf(AgentFlags(c, node, primaryIP), DataDir) == [UninstallInputs(c, true).dataDir]
  {
    var c := WithDefaults(cfg).cluster;
    DefaultsFillOnlyGaps(cfg);
    ServerFlagValues(c, node, primaryIP, isPrimary, DataDir);
    AgentFlagValues(c, node, primaryIP, DataDir);
    assert NonEmpty([c.dataDir]) == [c.dataDir] by {
      assert [c.dataDir][..0] == [];
    }
  }

  // ---------------------------------------------------------------- formatBytes

  /**
   * The integer part of formatBytes: small sizes are printed as they are;
   * larger ones are divided by `div` and printed with the unit letter.
   */
  datatype Size = Bytes(n: int) | Scaled(div: int, exp: nat, unit: char)

  function Pow1024(k: nat): (p: int)
    ensures p >= 1
  {
    if k == 0 then 1 else 1024 * Pow1024(k - 1)
  }

  const MaxInt64 := 0x7FFF_FFFF_FFFF_FFFF

  /**
   * formatBytes on an int64: below 1024 the size is shown in bytes; otherwise
   * the loop picks the largest power 1024^(exp+1) that fits, so that the
   * scaled value lies in [1, 1024) and the letter is "KMGTPE"[exp].
   */
  method FormatBytes(b: int) returns (s: Size)
    requires -MaxInt64 - 1 <= b <= MaxInt64
    ensures b < 1024 <==> s.Bytes?
    ensures s.Bytes? ==> s.n == b
    ensures s.Scaled? ==>
      && s.exp <= 5 && s.div == Pow1024(s.exp + 1)
      && 1 <= b / s.div < 1024
      && s.unit == "KMGTPE"[s.exp]
  {
    if b < 1024 {
      return Bytes(b);
    }
    var div, exp := 1024, 0;
    var n := b / 1024;
    while n >= 1024
      invariant div == Pow1024(exp + 1) && div <= b
      invariant n == b / div && n >= 1
      invariant exp <= 5
      decreases n
    {
      DivDiv(b, div);
      div := div * 1024;
      exp := exp + 1;
      n := n / 1024;
      assert div <= b;
      PowBound(exp);
    }
    return Scaled(div, exp, "KMGTPE"[exp]);
  }

  /** Dividing by d and then by 1024 is dividing by d * 1024. */
  lemma DivDiv(b: int, d: int)
    requires b >= 0 && d >= 1
    ensures b / d / 1024 == b / (d * 1024)
    ensures b / d >= 1024 ==> d * 1024 <= b
  {
    var q, r := b / d, b % d;
    var q2, r2 := q / 1024, q % 1024;
    DivDivSplit(b, d, q, r, q2, r2);
    DivUnique(b, d * 1024, q2, d * r2 + r);
    if q >= 1024 {
      MulMonotone(d, 1024, q);
    }
  }

  lemma DivDivSplit(b: int, d: int, q: int, r: int, q2: int, r2: int)
    requires d >= 1 && b == d * q + r && 0 <= r < d
    requires q == 1024 * q2 + r2 && 0 <= r2 < 1024
    ensures b == (d * 1024) * q2 + (d * r2 + r) && 0 <= d * r2 + r < d * 1024
  {
    MulDistributes(d, 1024 * q2, r2);
    assert d * (1024 * q2) == (d * 1024) * q2;
    MulMonotone(d, r2, 1023);
  }

  lemma MulDistributes(a: int, x: int, y: int)
    ensures a * (x + y) == a * x + a * y
  {
  }

  lemma MulMonotone(a: int, x: int, y: int)
    requires a >= 0 && x <= y
    ensures a * x <= a * y
  {
  }

  lemma DivUnique(b: int, m: int, q: int, r: int)
    requires m >= 1 && b == m * q + r && 0 <= r < m
    ensures b / m == q
  {
    var q0, r0 := b / m, b % m;
    assert b == m * q0 + r0;
    if q0 > q {
      assert m * q0 >= m * (q + 1) by { MulMonotone(m, q + 1, q0); }
    } else if q0 < q {
      assert m * q >= m * (q0 + 1) by { MulMonotone(m, q0 + 1, q); }
    }
  }

  lemma PowBound(k: nat)
    requires Pow1024(k + 1) <= MaxInt64
    ensures k <= 5
  {
    if k > 5 {
      PowPastInt64(k + 1);
    }
  }

  lemma PowPastInt64(k: nat)
    requires k >= 7
    ensures Pow1024(k) > MaxInt64
  {
    PowMonotone(7, k);
  }

  lemma {:induction false} PowMonotone(j: nat, k: nat)
    requires j <= k
    ensures Pow1024(j) <= Pow1024(k)
  {
    if j < k {
      PowMonotone(j, k - 1);
    }
  }
}
