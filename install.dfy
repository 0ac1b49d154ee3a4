/**
 * The installation run: every server, then every agent, is reached over SSH
 * and taken through a fixed sequence of steps; the first failure ends the
 * run. Afterwards the kubeconfig of the primary server is fetched, pointed at
 * the primary and saved locally, and a failure there only warns.
 *
 * Each step list is a function of the configuration, the node, its role and
 * the assets that were resolved for it; the methods are proved to append to
 * the recorder's log exactly the events of those lists, up to and including
 * the first one that fails.
 */
module Install {
  import opened Wrappers
  import opened Text
  import opened Config
  import opened Units
  import opened Remote
  import Kubeconfig
  import Assets

  /** A node's role follows from its position: servers[0] is the primary. */
  datatype Role = Primary | Secondary | Agent

  datatype InstallError =
    | NoServers
    | Unreachable(ip: string)
    | StepFailed(ip: string)
    | AssetUnavailable(cause: Assets.AssetError)
    | NoKubeconfig
    | BadKubeconfig(msg: string)
    | SaveFailed

  const BinaryTarget := "/usr/local/bin/k3s"
  const UninstallTarget := "/usr/local/bin/k3s-uninstall.sh"
  const RegistriesTarget := "/etc/rancher/k3s/registries.yaml"
  const FallbackKubeconfig := "/etc/rancher/k3s/k3s.yaml"
  const LocalKubeconfig := "kubeconfig"

  /** The SSH user: the configured one, or root. */
  function UserOf(node: Node): (user: string)
    ensures user != ""
    ensures node.user != "" ==> user == node.user
    ensures node.user == "" ==> user == "root"
  {
    if node.user == "" then "root" else node.user
  }

  function ImagesDir(dataDir: string): string {
    PathJoin(PathJoin(dataDir, "agent"), "images")
  }

  function TarballTarget(dataDir: string): string {
    PathJoin(ImagesDir(dataDir), "k3s-airgap-images-amd64.tar.gz")
  }

  function CredPath(dataDir: string): string {
    PathJoin(PathJoin(PathJoin(dataDir, "server"), "cred"), "k3s.yaml")
  }

  // ---------------------------------------------------------------- running a list of steps

  /** The events of a list of actions on one machine. */
  function Events(m: Machine, actions: seq<Action>): (es: seq<Event>)
    ensures |es| == |actions|
    ensures forall i :: 0 <= i < |actions| ==> es[i] == Event(m, actions[i])
  {
    if actions == [] then [] else [Event(m, actions[0])] + Events(m, actions[1..])
  }

  /** The events a run of `actions` produces: each in turn, stopping after the first that fails. */
  function Executed(m: Machine, actions: seq<Action>, fails: Event -> bool): seq<Event> {
    if actions == [] then []
    else if fails(Event(m, actions[0])) then [Event(m, actions[0])]
    else [Event(m, actions[0])] + Executed(m, actions[1..], fails)
  }

  predicate AllSucceed(m: Machine, actions: seq<Action>, fails: Event -> bool) {
    forall i :: 0 <= i < |actions| ==> !fails(Event(m, actions[i]))
  }

  lemma AllSucceedCons(m: Machine, a: seq<Action>, fails: Event -> bool)
    requires a != []
    ensures AllSucceed(m, a, fails) <==> !fails(Event(m, a[0])) && AllSucceed(m, a[1..], fails)
  {
    if !fails(Event(m, a[0])) && AllSucceed(m, a[1..], fails) {
      forall i | 0 <= i < |a|
        ensures !fails(Event(m, a[i]))
      {
        if i > 0 {
          assert a[i] == a[1..][i - 1];
        }
      }
    }
  }

  /**
   * What a run does is a prefix of what was planned, in the planned order:
   * all of it when every step succeeds, otherwise up to and including the
   * first failing step, and nothing after it.
   */
  lemma {:induction false} ExecutedIsPrefix(m: Machine, actions: seq<Action>, fails: Event -> bool)
    ensures var ex := Executed(m, actions, fails);
      && |ex| <= |actions| && ex == Events(m, actions)[..|ex|]
      && (AllSucceed(m, actions, fails) ==> |ex| == |actions|)
      && (!AllSucceed(m, actions, fails) ==>
            |ex| > 0 && fails(ex[|ex| - 1]) && AllSucceed(m, actions[..|ex| - 1], fails))
    decreases |actions|
  {
    if actions != [] {
      var e := Event(m, actions[0]);
      AllSucceedCons(m, actions, fails);
      if !fails(e) {
        ExecutedIsPrefix(m, actions[1..], fails);
        PrefixCons(m, actions, fails);
      } else {
        assert actions[..0] == [];
      }
    }
  }

  /** The step case of ExecutedIsPrefix: a first step that succeeds is followed by the run of the rest. */
  lemma PrefixCons(m: Machine, actions: seq<Action>, fails: Event -> bool)
    requires actions != [] && !fails(Event(m, actions[0]))
    requires var ex := Executed(m, actions[1..], fails);
      && |ex| <= |actions[1..]| && ex == Events(m, actions[1..])[..|ex|]
      && (!AllSucceed(m, actions[1..], fails) ==> |ex| > 0 && AllSucceed(m, actions[1..][..|ex| - 1], fails))
    ensures var ex := Executed(m, actions, fails);
      && |ex| <= |actions| && ex == Events(m, actions)[..|ex|]
      && (!AllSucceed(m, actions[1..], fails) ==> AllSucceed(m, actions[..|ex| - 1], fails))
  {
    var ex := Executed(m, actions[1..], fails);
    var e := Event(m, actions[0]);
    var es := Events(m, actions[1..]);
    assert Executed(m, actions, fails) == [e] + ex;
    assert Events(m, actions) == [e] + es;
    assert [e] + es[..|ex|] == ([e] + es)[..|ex| + 1];
    if !AllSucceed(m, actions[1..], fails) {
      AllSucceedShift(m, actions, |ex|, fails);
    }
  }

  lemma AllSucceedShift(m: Machine, actions: seq<Action>, k: nat, fails: Event -> bool)
    requires 0 < k <= |actions| && !fails(Event(m, actions[0]))
    requires AllSucceed(m, actions[1..][..k - 1], fails)
    ensures AllSucceed(m, actions[..k], fails)
  {
    forall i | 0 <= i < k
      ensures !fails(Event(m, actions[..k][i]))
    {
      if i > 0 {
        assert actions[..k][i] == actions[1..][..k - 1][i - 1];
      }
    }
  }

  /** Running two lists one after the other is running their concatenation. */
  lemma {:induction false} ExecutedAppend(m: Machine, a: seq<Action>, b: seq<Action>, fails: Event -> bool)
    ensures Executed(m, a + b, fails)
      == Executed(m, a, fails) + (if AllSucceed(m, a, fails) then Executed(m, b, fails) else [])
    ensures AllSucceed(m, a + b, fails) <==> AllSucceed(m, a, fails) && AllSucceed(m, b, fails)
    decreases |a|
  {
    if a == [] {
      assert a + b == b;
    } else {
      var e := Event(m, a[0]);
      assert (a + b)[0] == a[0];
      assert (a + b)[1..] == a[1..] + b;
      ExecutedAppend(m, a[1..], b, fails);
      AllSucceedCons(m, a, fails);
      AllSucceedCons(m, a + b, fails);
      if !fails(e) {
        var rest := if AllSucceed(m, a[1..], fails) then Executed(m, b, fails) else [];
        assert Executed(m, a + b, fails) == [e] + (Executed(m, a[1..], fails) + rest);
        Regroup([e], Executed(m, a[1..], fails), rest);
      }
    }
  }

  /** The asset steps as the binary steps followed by the optional ones. */
  lemma AssetStepsRegrouped(c: Cluster, bin: string, img: Option<string>)
    ensures AssetSteps(c, bin, img) == BinarySteps(bin) + (TarballSteps(c, img) + RegistrySteps(c))
  {
  }

  lemma Regroup(l: seq<Event>, a: seq<Event>, b: seq<Event>)
    ensures l + a + b == l + (a + b)
  {
  }

  // ---------------------------------------------------------------- the per-node plan

  /** prepareNode: the three directories a node needs. */
  function PrepareSteps(dataDir: string): seq<Action> {
    [Run(MakeDir("/usr/local/bin")), Run(MakeDir(ImagesDir(dataDir))), Run(MakeDir("/etc/rancher/k3s"))]
  }

  /** The first steps of uploadAssets: the binary and its mode. */
  function BinarySteps(bin: string): seq<Action> {
    [Upload(bin, BinaryTarget), Run(MakeExecutable(BinaryTarget))]
  }

  /** The image tarball, when one was resolved. */
  function TarballSteps(c: Cluster, img: Option<string>): seq<Action> {
    if img.Some? then [Upload(img.value, TarballTarget(c.dataDir))] else []
  }

  /** registries.yaml, when configured. */
  function RegistrySteps(c: Cluster): seq<Action> {
    if c.registries != "" then [UploadBytes(Text(c.registries), RegistriesTarget)] else []
  }

  /** uploadAssets once the binary is resolved. */
  function AssetSteps(c: Cluster, bin: string, img: Option<string>): seq<Action> {
    BinarySteps(bin) + TarballSteps(c, img) + RegistrySteps(c)
  }

  /** The name of the node's systemd unit. */
  function ServiceName(role: Role): string {
    if role == Agent then "k3s-agent" else "k3s"
  }

  /** Where the node's unit file goes. */
  function UnitPath(role: Role): string {
    if role == Agent then "/etc/systemd/system/k3s-agent.service" else "/etc/systemd/system/k3s.service"
  }

  /** The inputs of the node's unit. */
  function UnitSpecFor(c: Cluster, node: Node, role: Role, primaryIP: string): UnitSpec {
    if role == Agent then AgentUnit(c, node, primaryIP) else ServerUnit(c, node, primaryIP, role == Primary)
  }

  /**
   * The tail of installServer / installAgent: the uninstall script and its
   * mode, the unit file, the systemctl calls, and for servers the kubectl copy.
   */
  function ServiceSteps(c: Cluster, node: Node, role: Role, primaryIP: string): seq<Action> {
    var name := ServiceName(role);
    [UploadBytes(UninstallScript(UninstallInputs(c, role == Agent)), UninstallTarget),
     Run(MakeExecutable(UninstallTarget)),
     UploadBytes(ServiceUnit(UnitSpecFor(c, node, role, primaryIP)), UnitPath(role)),
     Run(DaemonReload),
     Run(EnableService(name)),
     Run(RestartService(name))]
    + (if role == Agent then [] else [Run(CopyToKubectl)])
  }

  /**
   * What happened to one node: its role, and what its binary and image
   * tarball resolved to (None when that resolution was never reached).
   */
  datatype NodeRun = NodeRun(
    node: Node,
    role: Role,
    bin: Option<Result<string, Assets.AssetError>>,
    img: Option<Result<string, Assets.AssetError>>)

  /** The binary path to upload, when it was resolved. */
  function Binary(r: NodeRun): Option<string> {
    if r.bin.Some? && r.bin.value.Success? then Some(r.bin.value.value) else None
  }

  /** The tarball path to upload: only a successful resolution gives one. */
  function ImagePath(img: Option<Result<string, Assets.AssetError>>): Option<string> {
    if img.Some? && img.value.Success? then Some(img.value.value) else None
  }

  /**
   * The resolutions a run records are the ones its configuration yields: the
   * binary's whenever it was resolved, and the tarball's exactly when a
   * tarball is configured and the binary reached the node.
   */
  predicate ResolvedAs(r: NodeRun, tarball: string, fails: Event -> bool,
                       bin: Result<string, Assets.AssetError>, img: Result<string, Assets.AssetError>)
  {
    && (r.bin.Some? ==> r.bin.value == bin)
    && (r.img.Some? <==> Binary(r).Some? && tarball != "" && AllSucceed(Host(r), BinarySteps(Binary(r).value), fails))
    && (r.img.Some? ==> r.img.value == img)
  }

  function Host(r: NodeRun): Machine {
    RemoteHost(r.node.ip)
  }

  /** What follows the preparation: the assets and the service, or nothing without a binary. */
  function Deployment(c: Cluster, primaryIP: string, r: NodeRun): seq<Action> {
    if Binary(r).Some? then AssetSteps(c, Binary(r).value, ImagePath(r.img)) + ServiceSteps(c, r.node, r.role, primaryIP)
    else []
  }

  /** The steps a node goes through after connecting. */
  function Plan(c: Cluster, primaryIP: string, r: NodeRun): seq<Action> {
    PrepareSteps(c.dataDir) + Deployment(c, primaryIP, r)
  }

  function Dial(r: NodeRun): Event {
    Event(Host(r), Connect(UserOf(r.node), r.node.port, ForInstall))
  }

  /** The events of one node: the connection, then the executed plan, then the deferred close. */
  function RunEvents(c: Cluster, primaryIP: string, r: NodeRun, fails: Event -> bool): seq<Event> {
    if fails(Dial(r)) then [Dial(r)]
    else [Dial(r)] + Executed(Host(r), Plan(c, primaryIP, r), fails) + [Event(Host(r), Close)]
  }

  predicate RunOk(c: Cluster, primaryIP: string, r: NodeRun, fails: Event -> bool) {
    !fails(Dial(r)) && Binary(r).Some? && AllSucceed(Host(r), Plan(c, primaryIP, r), fails)
  }

  lemma RefusedRun(c: Cluster, primaryIP: string, r: NodeRun, fails: Event -> bool)
    requires fails(Dial(r))
    ensures RunEvents(c, primaryIP, r, fails) == [Dial(r)]
    ensures !RunOk(c, primaryIP, r, fails)
  {
  }

  lemma ConnectedRun(c: Cluster, primaryIP: string, r: NodeRun, fails: Event -> bool)
    requires !fails(Dial(r))
    ensures RunEvents(c, primaryIP, r, fails)
      == [Dial(r)] + (Executed(Host(r), Plan(c, primaryIP, r), fails) + [Event(Host(r), Close)])
    ensures RunOk(c, primaryIP, r, fails) <==> Binary(r).Some? && AllSucceed(Host(r), Plan(c, primaryIP, r), fails)
  {
  }

  /** The events of several nodes, in order. */
  function AllEvents(c: Cluster, primaryIP: string, runs: seq<NodeRun>, fails: Event -> bool): seq<Event> {
    if runs == [] then []
    else AllEvents(c, primaryIP, runs[..|runs| - 1], fails) + RunEvents(c, primaryIP, runs[|runs| - 1], fails)
  }

  lemma AllEventsSnoc(c: Cluster, primaryIP: string, runs: seq<NodeRun>, r: NodeRun, fails: Event -> bool)
    ensures AllEvents(c, primaryIP, runs + [r], fails) == AllEvents(c, primaryIP, runs, fails) + RunEvents(c, primaryIP, r, fails)
  {
    assert (runs + [r])[..|runs|] == runs;
  }

  /** Each run is the node at its position, in the role that position gives. */
  predicate InOrder(cfg: Config, runs: seq<NodeRun>) {
    |runs| <= |Nodes(cfg)| &&
    forall i :: 0 <= i < |runs| ==> runs[i].node == Nodes(cfg)[i] && runs[i].role == RoleAt(cfg, i)
  }

  predicate AllOk(c: Cluster, primaryIP: string, runs: seq<NodeRun>, fails: Event -> bool) {
    forall i :: 0 <= i < |runs| ==> RunOk(c, primaryIP, runs[i], fails)
  }

  /** Every node was visited in order and each ran its whole plan. */
  predicate Completed(cfg: Config, runs: seq<NodeRun>, fails: Event -> bool)
    requires |cfg.servers| > 0
  {
    |runs| == |Nodes(cfg)| && InOrder(cfg, runs) && AllOk(cfg.cluster, cfg.servers[0].ip, runs, fails)
  }

  /** The nodes were visited in order up to the last one, the first whose run failed. */
  predicate Halted(cfg: Config, runs: seq<NodeRun>, fails: Event -> bool)
    requires |cfg.servers| > 0
  {
    |runs| > 0 && InOrder(cfg, runs)
    && AllOk(cfg.cluster, cfg.servers[0].ip, runs[..|runs| - 1], fails)
    && !RunOk(cfg.cluster, cfg.servers[0].ip, runs[|runs| - 1], fails)
  }

  /** The bookkeeping of one more node in Apply: its place in the order and its events appended. */
  lemma Extended(cfg: Config, primaryIP: string, runs: seq<NodeRun>, r: NodeRun, log: seq<Event>, fails: Event -> bool)
    requires InOrder(cfg, runs) && |runs| < |Nodes(cfg)|
    requires r.node == Nodes(cfg)[|runs|] && r.role == RoleAt(cfg, |runs|)
    ensures InOrder(cfg, runs + [r])
    ensures log + AllEvents(cfg.cluster, primaryIP, runs, fails) + RunEvents(cfg.cluster, primaryIP, r, fails)
      == log + AllEvents(cfg.cluster, primaryIP, runs + [r], fails)
  {
    AllEventsSnoc(cfg.cluster, primaryIP, runs, r, fails);
    Regroup(log, AllEvents(cfg.cluster, primaryIP, runs, fails), RunEvents(cfg.cluster, primaryIP, r, fails));
  }

  lemma AllOkSnoc(c: Cluster, primaryIP: string, runs: seq<NodeRun>, r: NodeRun, fails: Event -> bool)
    requires AllOk(c, primaryIP, runs, fails) && RunOk(c, primaryIP, r, fails)
    ensures AllOk(c, primaryIP, runs + [r], fails)
  {
  }

  /** The nodes in the order Apply visits them. */
  function Nodes(cfg: Config): seq<Node> {
    cfg.servers + cfg.agents
  }

  function RoleAt(cfg: Config, i: nat): Role {
    if i == 0 then Primary else if i < |cfg.servers| then Secondary else Agent
  }

  function MachineIP(m: Machine): string {
    match m
    case RemoteHost(ip) => ip
    case Local => ""
  }

  // ---------------------------------------------------------------- properties of the plan

  /**
   * Roles come from positions: with at least one server, position 0 is the
   * only primary, every other server joins as a secondary, and the agents
   * follow the servers.
   */
  lemma RolesFromPositions(cfg: Config, i: nat)
    requires |cfg.servers| > 0 && i < |Nodes(cfg)|
    ensures RoleAt(cfg, i) == Primary <==> i == 0
    ensures RoleAt(cfg, i) == Agent <==> i >= |cfg.servers|
    ensures RoleAt(cfg, i) != Agent ==> Nodes(cfg)[i] == cfg.servers[i]
    ensures RoleAt(cfg, i) == Agent ==> Nodes(cfg)[i] == cfg.agents[i - |cfg.servers|]
  {
  }

  /** Only servers copy the k3s binary to kubectl, and only once their binary was resolved. */
  lemma KubectlCopyOnlyOnServers(c: Cluster, primaryIP: string, r: NodeRun)
    ensures Run(CopyToKubectl) in Plan(c, primaryIP, r) <==> r.role != Agent && Binary(r).Some?
  {
    var p := PrepareSteps(c.dataDir);
    assert Run(CopyToKubectl) !in p;
    if Binary(r).Some? {
      var a := AssetSteps(c, Binary(r).value, ImagePath(r.img));
      var s := ServiceSteps(c, r.node, r.role, primaryIP);
      assert Plan(c, primaryIP, r) == p + (a + s);
      AssetStepsNoKubectl(c, Binary(r).value, ImagePath(r.img));
      ServiceStepsKubectl(c, r.node, r.role, primaryIP);
      InThree(p, a, s, Run(CopyToKubectl));
    } else {
      assert Plan(c, primaryIP, r) == p + [];
    }
  }

  lemma AssetStepsNoKubectl(c: Cluster, bin: string, img: Option<string>)
    ensures Run(CopyToKubectl) !in AssetSteps(c, bin, img)
  {
  }

  lemma ServiceStepsKubectl(c: Cluster, node: Node, role: Role, primaryIP: string)
    ensures Run(CopyToKubectl) in ServiceSteps(c, node, role, primaryIP) <==> role != Agent
  {
    var s := ServiceSteps(c, node, role, primaryIP);
    if role != Agent {
      assert s[|s| - 1] == Run(CopyToKubectl);
    }
  }

  lemma InThree(p: seq<Action>, a: seq<Action>, s: seq<Action>, x: Action)
    ensures x in p + (a + s) <==> x in p || x in a || x in s
  {
  }

  /** A tarball that could not be resolved is skipped: the node then runs as if none was configured. */
  lemma TarballFailureSkipped(c: Cluster, primaryIP: string, r: NodeRun, e: Assets.AssetError, fails: Event -> bool)
    requires r.img == Some(Failure(e))
    ensures Plan(c, primaryIP, r) == Plan(c, primaryIP, r.(img := None))
    ensures RunEvents(c, primaryIP, r, fails) == RunEvents(c, primaryIP, r.(img := None), fails)
    ensures RunOk(c, primaryIP, r, fails) == RunOk(c, primaryIP, r.(img := None), fails)
  {
  }

  /** A connection that was made is always closed: the close comes last and nowhere before it. */
  lemma ConnectionClosed(c: Cluster, primaryIP: string, r: NodeRun, fails: Event -> bool)
    requires !fails(Dial(r))
    ensures var es := RunEvents(c, primaryIP, r, fails);
      && |es| >= 2 && es[0] == Dial(r) && es[|es| - 1] == Event(Host(r), Close)
      && forall i :: 0 < i < |es| - 1 ==> es[i].action != Close
  {
    var plan := Plan(c, primaryIP, r);
    var ex := Executed(Host(r), plan, fails);
    ExecutedIsPrefix(Host(r), plan, fails);
    var es := RunEvents(c, primaryIP, r, fails);
    forall i | 0 < i < |es| - 1
      ensures es[i].action != Close
    {
      assert es[i] == ex[i - 1];
      assert ex[i - 1] == Events(Host(r), plan)[i - 1];
      PlanHasNoClose(c, primaryIP, r, plan[i - 1]);
    }
  }

  /** No step of a plan closes the connection: only the deferred close does. */
  lemma PlanHasNoClose(c: Cluster, primaryIP: string, r: NodeRun, a: Action)
    requires a in Plan(c, primaryIP, r)
    ensures !a.Close?
  {
    if Binary(r).Some? {
      var assetSteps := AssetSteps(c, Binary(r).value, ImagePath(r.img));
      var serviceSteps := ServiceSteps(c, r.node, r.role, primaryIP);
      assert a in PrepareSteps(c.dataDir) || a in assetSteps || a in serviceSteps;
      if a in serviceSteps {
        ServiceStepsNoClose(c, r.node, r.role, primaryIP, a);
      }
    }
  }

  lemma ServiceStepsNoClose(c: Cluster, node: Node, role: Role, primaryIP: string, a: Action)
    requires a in ServiceSteps(c, node, role, primaryIP)
    ensures !a.Close?
  {
  }

  /** A node that succeeded ran every planned step, in order, between connecting and closing. */
  lemma SuccessfulRunIsWholePlan(c: Cluster, primaryIP: string, r: NodeRun, fails: Event -> bool)
    requires RunOk(c, primaryIP, r, fails)
    ensures RunEvents(c, primaryIP, r, fails)
      == [Dial(r)] + Events(Host(r), Plan(c, primaryIP, r)) + [Event(Host(r), Close)]
  {
    var plan := Plan(c, primaryIP, r);
    ExecutedIsPrefix(Host(r), plan, fails);
    assert Events(Host(r), plan)[..|plan|] == Events(Host(r), plan);
  }

  /** Every event of a run of several nodes happens on one of those nodes: later nodes are never contacted. */
  lemma {:induction false} AllEventsOnVisitedNodes(c: Cluster, primaryIP: string, runs: seq<NodeRun>, fails: Event -> bool)
    ensures forall e :: e in AllEvents(c, primaryIP, runs, fails) ==> exists k :: 0 <= k < |runs| && e.machine == Host(runs[k])
    decreases |runs|
  {
    if runs != [] {
      var init := runs[..|runs| - 1];
      var r := runs[|runs| - 1];
      AllEventsOnVisitedNodes(c, primaryIP, init, fails);
      var plan := Plan(c, primaryIP, r);
      ExecutedIsPrefix(Host(r), plan, fails);
      var ex := Executed(Host(r), plan, fails);
      forall e | e in AllEvents(c, primaryIP, runs, fails)
        ensures exists k :: 0 <= k < |runs| && e.machine == Host(runs[k])
      {
        if e in AllEvents(c, primaryIP, init, fails) {
          var k :| 0 <= k < |init| && e.machine == Host(init[k]);
          assert init[k] == runs[k];
        } else {
          assert e in RunEvents(c, primaryIP, r, fails);
          if e in ex {
            var j :| 0 <= j < |ex| && ex[j] == e;
            assert ex[j] == Events(Host(r), plan)[j];
          }
          assert e.machine == Host(runs[|runs| - 1]);
        }
      }
    }
  }

  // ---------------------------------------------------------------- the kubeconfig download

  /** The events of downloadKubeconfig and whether it saved a kubeconfig. */
  function KubeconfigRun(c: Cluster, primary: Node, fails: Event -> bool, served: Event -> Result<Kubeconfig.Document, string>)
    : (seq<Event>, bool)
  {
    var m := RemoteHost(primary.ip);
    var dial := KubeconfigDial(primary);
    var first := Event(m, Download(CredPath(c.dataDir)));
    var second := Event(m, Download(FallbackKubeconfig));
    var close := Event(m, Close);
    if fails(dial) then ([dial], false)
    else
      var tried := Tried(c, primary, fails);
      match Fetched(c, primary, fails, served)
      case Some(Success(doc)) =>
        var save := Event(Local, WriteFile(LocalKubeconfig, KubeconfigFile(Kubeconfig.Patch(doc, primary.ip))));
        ([dial] + tried + [save, close], !fails(save))
      case _ => ([dial] + tried + [close], false)
  }

  /** The connection downloadKubeconfig opens: a session of its own, separate from the installation's. */
  function KubeconfigDial(primary: Node): Event {
    Event(RemoteHost(primary.ip), Connect(UserOf(primary), primary.port, ForKubeconfig))
  }

  /** The outcomes of fails, except that the event refused is refused as well. */
  function Refusing(fails: Event -> bool, refused: Event): Event -> bool {
    (e: Event) => fails(e) || e == refused
  }

  /** No step of a plan opens a connection: only the dial before it does. */
  lemma PlanHasNoConnect(c: Cluster, primaryIP: string, r: NodeRun, a: Action)
    requires a in Plan(c, primaryIP, r)
    ensures !a.Connect?
  {
    if a !in PrepareSteps(c.dataDir) {
      var assetSteps := AssetSteps(c, Binary(r).value, ImagePath(r.img));
      var serviceSteps := ServiceSteps(c, r.node, r.role, primaryIP);
      assert a in assetSteps + serviceSteps;
      if a in serviceSteps {
        ServiceStepsNoConnect(c, r.node, r.role, primaryIP, a);
      } else {
        AssetStepsNoConnect(c, Binary(r).value, ImagePath(r.img), a);
      }
    }
  }

  lemma AssetStepsNoConnect(c: Cluster, bin: string, img: Option<string>, a: Action)
    requires a in AssetSteps(c, bin, img)
    ensures !a.Connect?
  {
    assert a in BinarySteps(bin) || a in TarballSteps(c, img) || a in RegistrySteps(c);
  }

  lemma ServiceStepsNoConnect(c: Cluster, node: Node, role: Role, primaryIP: string, a: Action)
    requires a in ServiceSteps(c, node, role, primaryIP)
    ensures !a.Connect?
  {
  }

  /** Executing a plan depends only on the outcomes of its own steps. */
  lemma {:induction false} ExecutedSameOutcomes(m: Machine, a: seq<Action>, f: Event -> bool, g: Event -> bool)
    requires forall i :: 0 <= i < |a| ==> (f(Event(m, a[i])) <==> g(Event(m, a[i])))
    ensures Executed(m, a, f) == Executed(m, a, g)
    ensures AllSucceed(m, a, f) <==> AllSucceed(m, a, g)
    decreases |a|
  {
    if a != [] {
      ExecutedSameOutcomes(m, a[1..], f, g);
    }
  }

  /**
   * The kubeconfig session is separate from every installation session:
   * refusing its connection alone leaves each node's events and outcome as
   * they were, and then no kubeconfig is saved, so a run in which every
   * node installed and the kubeconfig connection was refused can happen.
   */
  lemma KubeconfigRefusalAfterInstall(c: Cluster, primaryIP: string, r: NodeRun, primary: Node,
                                      fails: Event -> bool, served: Event -> Result<Kubeconfig.Document, string>)
    ensures var refused := Refusing(fails, KubeconfigDial(primary));
      && RunEvents(c, primaryIP, r, refused) == RunEvents(c, primaryIP, r, fails)
      && (RunOk(c, primaryIP, r, refused) <==> RunOk(c, primaryIP, r, fails))
      && KubeconfigRun(c, primary, refused, served) == ([KubeconfigDial(primary)], false)
  {
    var refused := Refusing(fails, KubeconfigDial(primary));
    var plan := Plan(c, primaryIP, r);
    forall i | 0 <= i < |plan|
      ensures fails(Event(Host(r), plan[i])) <==> refused(Event(Host(r), plan[i]))
    {
      PlanHasNoConnect(c, primaryIP, r, plan[i]);
    }
    ExecutedSameOutcomes(Host(r), plan, fails, refused);
    assert refused(Dial(r)) == fails(Dial(r));
  }

  /**
   * A node that got a binary gets exactly the file resolving the configured
   * source yields: a local source as it is, a URL as the download under the
   * temporary directory.
   */
  lemma ResolvedBinaryUploaded(c: Cluster, primaryIP: string, r: NodeRun, tarball: string, fails: Event -> bool,
                               img: Result<string, Assets.AssetError>, files: map<string, Assets.Bytes>, dirs: set<string>,
                               locked: set<string>, tempDir: string, resp: Assets.Response, source: string)
    requires ResolvedAs(r, tarball, fails, Assets.Resolution(files, dirs, locked, tempDir, resp, source, "k3s binary"), img)
    requires r.bin.Some? && Assets.Resolution(files, dirs, locked, tempDir, resp, source, "k3s binary").Success?
    ensures Upload(if Assets.IsURL(source) then PathJoin(tempDir, Assets.FilenameFromURL(source)) else source, BinaryTarget)
      in Plan(c, primaryIP, r)
  {
    Assets.ResolutionSucceeds(files, dirs, locked, tempDir, resp, source, "k3s binary");
    assert Plan(c, primaryIP, r)[|PrepareSteps(c.dataDir)|] == Upload(Binary(r).value, BinaryTarget);
  }

  /** The downloads downloadKubeconfig attempts: the data-dir copy, and the fallback only when that failed. */
  function Tried(c: Cluster, primary: Node, fails: Event -> bool): seq<Event> {
    var first := Event(RemoteHost(primary.ip), Download(CredPath(c.dataDir)));
    if fails(first) then [first, Event(RemoteHost(primary.ip), Download(FallbackKubeconfig))] else [first]
  }

  /** What the last attempted download yields: nothing when it failed, else the decoded document. */
  function Fetched(c: Cluster, primary: Node, fails: Event -> bool, served: Event -> Result<Kubeconfig.Document, string>)
    : Option<Result<Kubeconfig.Document, string>>
  {
    var tried := Tried(c, primary, fails);
    if fails(tried[|tried| - 1]) then None else Some(served(tried[|tried| - 1]))
  }

  /**
   * The data-dir location is tried first and the fallback only after it
   * failed; whatever is saved is a downloaded document patched to point at
   * the primary; a connection that was made is closed last.
   */
  lemma KubeconfigOrder(c: Cluster, primary: Node, fails: Event -> bool, served: Event -> Result<Kubeconfig.Document, string>)
    ensures var (es, saved) := KubeconfigRun(c, primary, fails, served);
      var m := RemoteHost(primary.ip);
      && |es| >= 1 && es[0] == Event(m, Connect(UserOf(primary), primary.port, ForKubeconfig))
      && (|es| > 1 ==> es[1] == Event(m, Download(CredPath(c.dataDir))) && es[|es| - 1] == Event(m, Close))
      && (|es| > 2 && es[2].action.Download? ==> fails(es[1]) && es[2] == Event(m, Download(FallbackKubeconfig)))
      && (saved ==> exists d :: (1 <= d < |es| - 2 && !fails(es[d]) && served(es[d]).Success?
                    && es[|es| - 2] == Event(Local, WriteFile(LocalKubeconfig, KubeconfigFile(Kubeconfig.Patch(served(es[d]).value, primary.ip))))))
  {
    var (es, saved) := KubeconfigRun(c, primary, fails, served);
    if saved {
      var first := Event(RemoteHost(primary.ip), Download(CredPath(c.dataDir)));
      var d := if fails(first) then 2 else 1;
      assert 1 <= d < |es| - 2 && !fails(es[d]) && served(es[d]).Success?;
    }
  }

  // ---------------------------------------------------------------- the cluster summary

  /** The connection showClusterInfo opens to the primary: a session of its own. */
  function ClusterInfoDial(primary: Node): Event {
    Event(RemoteHost(primary.ip), Connect(UserOf(primary), primary.port, ForClusterInfo))
  }

  /**
   * The events of showClusterInfo: the connection; then `kubectl get nodes`
   * as a check and, only when that succeeded, once more for its output; then
   * the deferred close. Failures are only logged.
   */
  function ClusterInfoRun(primary: Node, fails: Event -> bool): seq<Event> {
    var m := RemoteHost(primary.ip);
    var dial := ClusterInfoDial(primary);
    var check := Event(m, Run(GetNodes));
    var close := Event(m, Close);
    if fails(dial) then [dial]
    else if fails(check) then [dial, check, close]
    else [dial, check, check, close]
  }

  /**
   * showClusterInfo stays on the primary: it connects first, closes last
   * when it connected, runs nothing but `kubectl get nodes`, and runs it a
   * second time exactly when the first succeeded.
   */
  lemma ClusterInfoShape(primary: Node, fails: Event -> bool)
    ensures var es := ClusterInfoRun(primary, fails);
      var m := RemoteHost(primary.ip);
      && |es| >= 1 && es[0] == ClusterInfoDial(primary)
      && (forall i :: 0 <= i < |es| ==> es[i].machine == m)
      && (|es| > 1 <==> !fails(es[0]))
      && (|es| > 1 ==> es[|es| - 1] == Event(m, Close))
      && (forall i :: 0 < i < |es| - 1 ==> es[i] == Event(m, Run(GetNodes)))
      && (|es| == 4 <==> !fails(es[0]) && !fails(Event(m, Run(GetNodes))))
  {
  }

  // ---------------------------------------------------------------- the installer

  class Installer {
    const cfg: Config
    const assets: Assets.AssetManager
    const ssh: Recorder

    constructor(cfg: Config, assets: Assets.AssetManager, ssh: Recorder)
      ensures this.cfg == cfg && this.assets == assets && this.ssh == ssh
    {
      this.cfg := cfg;
      this.assets := assets;
      this.ssh := ssh;
    }

    /** What uploadAssets' resolution of the configured binary yields from the current state. */
    function BinaryResolution(): Result<string, Assets.AssetError>
      reads assets.fs
    {
      assets.Resolve(cfg.assets.k3sBinary, "k3s binary")
    }

    /** What its resolution of the configured tarball yields, once the binary has been resolved. */
    function TarballResolution(): Result<string, Assets.AssetError>
      reads assets.fs
    {
      assets.ResolveAfter(cfg.assets.k3sBinary, cfg.assets.k3sAirgapTarball, "airgap images")
    }

    /** A chain of steps, each returning early on its error. */
    method RunAll(m: Machine, actions: seq<Action>) returns (ok: bool)
      modifies ssh
      ensures ssh.log == old(ssh.log) + Executed(m, actions, ssh.fails)
      ensures ok == AllSucceed(m, actions, ssh.fails)
    {
      var i := 0;
      while i < |actions|
        invariant 0 <= i <= |actions|
        invariant ssh.log + Executed(m, actions[i..], ssh.fails) == old(ssh.log) + Executed(m, actions, ssh.fails)
        invariant AllSucceed(m, actions[..i], ssh.fails)
      {
        var e := Event(m, actions[i]);
        assert actions[i..][0] == actions[i] && actions[i..][1..] == actions[i + 1..];
        var stepOk := ssh.Perform(e);
        if !stepOk {
          assert Executed(m, actions[i..], ssh.fails) == [e];
          return false;
        }
        assert Executed(m, actions[i..], ssh.fails) == [e] + Executed(m, actions[i + 1..], ssh.fails);
        assert actions[..i + 1] == actions[..i] + [actions[i]];
        i := i + 1;
      }
      assert actions[..i] == actions;
      return true;
    }

    /** prepareNode */
    method PrepareNode(m: Machine) returns (ok: bool)
      modifies ssh
      ensures ssh.log == old(ssh.log) + Executed(m, PrepareSteps(cfg.cluster.dataDir), ssh.fails)
      ensures ok == AllSucceed(m, PrepareSteps(cfg.cluster.dataDir), ssh.fails)
    {
      ok := RunAll(m, PrepareSteps(cfg.cluster.dataDir));
    }

    /**
     * uploadAssets: the binary must resolve; the tarball is resolved only
     * when configured, and a failure to resolve it is skipped.
     */
    method UploadAssets(m: Machine)
      returns (err: Option<InstallError>, ghost bin: Result<string, Assets.AssetError>, ghost img: Option<Result<string, Assets.AssetError>>)
      requires assets.Valid()
      modifies ssh, assets, assets.fs
      ensures assets.Valid()
      ensures bin.Failure? ==> ssh.log == old(ssh.log) && err == Some(AssetUnavailable(bin.error)) && img.None?
      ensures bin.Success? ==>
        && ssh.log == old(ssh.log) + Executed(m, AssetSteps(cfg.cluster, bin.value, ImagePath(img)), ssh.fails)
        && (err.None? <==> AllSucceed(m, AssetSteps(cfg.cluster, bin.value, ImagePath(img)), ssh.fails))
      ensures err.None? ==> bin.Success?
      ensures cfg.assets.k3sAirgapTarball == "" ==> img.None?
      ensures bin == old(BinaryResolution())
      ensures img.Some? <==> bin.Success? && cfg.assets.k3sAirgapTarball != "" && AllSucceed(m, BinarySteps(bin.value), ssh.fails)
      ensures img.Some? ==> img.value == old(TarballResolution())
    {
      img := None;
      var k3sPath := assets.ResolveAsset(cfg.assets.k3sBinary, "k3s binary");
      bin := k3sPath;
      assert assets.Resolve(cfg.assets.k3sAirgapTarball, "airgap images") == old(TarballResolution());
      if k3sPath.Failure? {
        return Some(AssetUnavailable(k3sPath.error)), bin, img;
      }
      var ok;
      ok, img := UploadResolved(m, k3sPath.value);
      if !ok {
        return Some(StepFailed(MachineIP(m))), bin, img;
      }
      return None, bin, img;
    }

    /** The rest of uploadAssets once the binary is resolved: binary, tarball, registries.yaml. */
    method UploadResolved(m: Machine, k3sPath: string) returns (ok: bool, ghost img: Option<Result<string, Assets.AssetError>>)
      requires assets.Valid()
      modifies ssh, assets, assets.fs
      ensures assets.Valid()
      ensures ssh.log == old(ssh.log) + Executed(m, AssetSteps(cfg.cluster, k3sPath, ImagePath(img)), ssh.fails)
      ensures ok == AllSucceed(m, AssetSteps(cfg.cluster, k3sPath, ImagePath(img)), ssh.fails)
      ensures cfg.assets.k3sAirgapTarball == "" ==> img.None?
      ensures img.Some? <==> cfg.assets.k3sAirgapTarball != "" && AllSucceed(m, BinarySteps(k3sPath), ssh.fails)
      ensures img.Some? ==> img.value == old(assets.Resolve(cfg.assets.k3sAirgapTarball, "airgap images"))
    {
      img := None;
      var b, r := BinarySteps(k3sPath), RegistrySteps(cfg.cluster);
      ok := RunAll(m, b);
      if !ok {
        ExecutedAppend(m, b, TarballSteps(cfg.cluster, None) + r, ssh.fails);
        AssetStepsRegrouped(cfg.cluster, k3sPath, None);
        assert Executed(m, b, ssh.fails) + [] == Executed(m, b, ssh.fails);
        return;
      }
      ghost var afterBinary := ssh.log;
      ok, img := UploadOptional(m);
      ghost var t := TarballSteps(cfg.cluster, ImagePath(img));
      ExecutedAppend(m, b, t + r, ssh.fails);
      AssetStepsRegrouped(cfg.cluster, k3sPath, ImagePath(img));
      Regroup(old(ssh.log), Executed(m, b, ssh.fails), Executed(m, t + r, ssh.fails));
    }

    /** The optional assets of uploadAssets: the tarball, then registries.yaml. */
    method UploadOptional(m: Machine) returns (ok: bool, ghost img: Option<Result<string, Assets.AssetError>>)
      requires assets.Valid()
      modifies ssh, assets, assets.fs
      ensures assets.Valid()
      ensures ssh.log == old(ssh.log) + Executed(m, TarballSteps(cfg.cluster, ImagePath(img)) + RegistrySteps(cfg.cluster), ssh.fails)
      ensures ok == AllSucceed(m, TarballSteps(cfg.cluster, ImagePath(img)) + RegistrySteps(cfg.cluster), ssh.fails)
      ensures cfg.assets.k3sAirgapTarball == "" <==> img.None?
      ensures img.Some? ==> img.value == old(assets.Resolve(cfg.assets.k3sAirgapTarball, "airgap images"))
    {
      ok, img := UploadTarball(m);
      ghost var t := TarballSteps(cfg.cluster, ImagePath(img));
      var r := RegistrySteps(cfg.cluster);
      ExecutedAppend(m, t, r, ssh.fails);
      if ok && cfg.cluster.registries != "" {
        ok := RunAll(m, r);
        Regroup(old(ssh.log), Executed(m, t, ssh.fails), Executed(m, r, ssh.fails));
      } else if ok {
        assert r == [];
        assert Executed(m, t, ssh.fails) + [] == Executed(m, t, ssh.fails);
      } else {
        assert Executed(m, t, ssh.fails) + [] == Executed(m, t, ssh.fails);
      }
    }

    /** The optional airgap tarball: resolved when configured, skipped when that fails, uploaded otherwise. */
    method UploadTarball(m: Machine) returns (ok: bool, ghost img: Option<Result<string, Assets.AssetError>>)
      requires assets.Valid()
      modifies ssh, assets, assets.fs
      ensures assets.Valid()
      ensures ssh.log == old(ssh.log) + Executed(m, TarballSteps(cfg.cluster, ImagePath(img)), ssh.fails)
      ensures ok == AllSucceed(m, TarballSteps(cfg.cluster, ImagePath(img)), ssh.fails)
      ensures cfg.assets.k3sAirgapTarball == "" <==> img.None?
      ensures img.Some? ==> img.value == old(assets.Resolve(cfg.assets.k3sAirgapTarball, "airgap images"))
    {
      img := None;
      ok := true;
      if cfg.assets.k3sAirgapTarball != "" {
        var imgPath := assets.ResolveAsset(cfg.assets.k3sAirgapTarball, "airgap images");
        img := Some(imgPath);
        if imgPath.Success? {
          ok := RunAll(m, [Upload(imgPath.value, TarballTarget(cfg.cluster.dataDir))]);
        }
      }
    }

    /** The uninstall script, the unit for the role, and the systemctl calls. */
    method InstallService(m: Machine, node: Node, role: Role, primaryIP: string) returns (ok: bool)
      modifies ssh
      ensures ssh.log == old(ssh.log) + Executed(m, ServiceSteps(cfg.cluster, node, role, primaryIP), ssh.fails)
      ensures ok == AllSucceed(m, ServiceSteps(cfg.cluster, node, role, primaryIP), ssh.fails)
    {
      var script := UninstallScript(UninstallInputs(cfg.cluster, role == Agent));
      var steps: seq<Action>;
      if role == Agent {
        var spec := AgentUnit(cfg.cluster, node, primaryIP);
        var svc := AgentServiceContent(cfg.cluster, node, primaryIP);
        assert svc == UnitContent(spec);
        steps := [UploadBytes(script, UninstallTarget),
                  Run(MakeExecutable(UninstallTarget)),
                  UploadBytes(ServiceUnit(spec), "/etc/systemd/system/k3s-agent.service"),
                  Run(DaemonReload),
                  Run(EnableService("k3s-agent")),
                  Run(RestartService("k3s-agent"))];
      } else {
        var spec := ServerUnit(cfg.cluster, node, primaryIP, role == Primary);
        var svc := ServerServiceContent(cfg.cluster, node, primaryIP, role == Primary);
        assert svc == UnitContent(spec);
        steps := [UploadBytes(script, UninstallTarget),
                  Run(MakeExecutable(UninstallTarget)),
                  UploadBytes(ServiceUnit(spec), "/etc/systemd/system/k3s.service"),
                  Run(DaemonReload),
                  Run(EnableService("k3s")),
                  Run(RestartService("k3s")),
                  Run(CopyToKubectl)];
      }
      assert steps == ServiceSteps(cfg.cluster, node, role, primaryIP);
      ok := RunAll(m, steps);
    }

    /**
     * The part installServer and installAgent share, between connecting and
     * closing: prepare the node, then deploy it.
     */
    method Provision(node: Node, role: Role, primaryIP: string) returns (err: Option<InstallError>, ghost run: NodeRun)
      requires assets.Valid()
      modifies ssh, assets, assets.fs
      ensures assets.Valid()
      ensures run.node == node && run.role == role
      ensures ssh.log == old(ssh.log) + Executed(Host(run), Plan(cfg.cluster, primaryIP, run), ssh.fails)
      ensures err.None? <==> Binary(run).Some? && AllSucceed(Host(run), Plan(cfg.cluster, primaryIP, run), ssh.fails)
      ensures run.bin.Some? && run.bin.value.Failure? ==> err == Some(AssetUnavailable(run.bin.value.error))
      ensures run.bin.Some? <==> AllSucceed(Host(run), PrepareSteps(cfg.cluster.dataDir), ssh.fails)
      ensures ResolvedAs(run, cfg.assets.k3sAirgapTarball, ssh.fails, old(BinaryResolution()), old(TarballResolution()))
    {
      var m := RemoteHost(node.ip);
      run := NodeRun(node, role, None, None);
      var prepare := PrepareSteps(cfg.cluster.dataDir);
      var ok := PrepareNode(m);
      if !ok {
        ExecutedAppend(m, prepare, Deployment(cfg.cluster, primaryIP, run), ssh.fails);
        assert Executed(m, prepare, ssh.fails) + [] == Executed(m, prepare, ssh.fails);
        return Some(StepFailed(node.ip)), run;
      }
      err, run := Deploy(node, role, primaryIP);
      ExecutedAppend(m, prepare, Deployment(cfg.cluster, primaryIP, run), ssh.fails);
      Regroup(old(ssh.log), Executed(m, prepare, ssh.fails), Executed(m, Deployment(cfg.cluster, primaryIP, run), ssh.fails));
    }

    /**
     * After the preparation: upload the assets, then install the uninstall
     * script and the unit for the node's role and start it.
     */
    method Deploy(node: Node, role: Role, primaryIP: string) returns (err: Option<InstallError>, ghost run: NodeRun)
      requires assets.Valid()
      modifies ssh, assets, assets.fs
      ensures assets.Valid()
      ensures run.node == node && run.role == role && run.bin.Some?
      ensures ssh.log == old(ssh.log) + Executed(Host(run), Deployment(cfg.cluster, primaryIP, run), ssh.fails)
      ensures err.None? <==> Binary(run).Some? && AllSucceed(Host(run), Deployment(cfg.cluster, primaryIP, run), ssh.fails)
      ensures run.bin.value.Failure? ==> err == Some(AssetUnavailable(run.bin.value.error))
      ensures ResolvedAs(run, cfg.assets.k3sAirgapTarball, ssh.fails, old(BinaryResolution()), old(TarballResolution()))
    {
      var m := RemoteHost(node.ip);
      var assetErr, bin, img := UploadAssets(m);
      run := NodeRun(node, role, Some(bin), img);
      if assetErr.Some? {
        if bin.Success? {
          ExecutedAppend(m, AssetSteps(cfg.cluster, bin.value, ImagePath(img)), ServiceSteps(cfg.cluster, node, role, primaryIP), ssh.fails);
          assert Executed(m, AssetSteps(cfg.cluster, bin.value, ImagePath(img)), ssh.fails) + []
            == Executed(m, AssetSteps(cfg.cluster, bin.value, ImagePath(img)), ssh.fails);
        }
        return assetErr, run;
      }
      ghost var assetSteps := AssetSteps(cfg.cluster, bin.value, ImagePath(img));
      ghost var serviceSteps := ServiceSteps(cfg.cluster, node, role, primaryIP);
      ExecutedAppend(m, assetSteps, serviceSteps, ssh.fails);
      var ok := InstallService(m, node, role, primaryIP);
      Regroup(old(ssh.log), Executed(m, assetSteps, ssh.fails), Executed(m, serviceSteps, ssh.fails));
      if !ok {
        return Some(StepFailed(node.ip)), run;
      }
      return None, run;
    }

    /** The connection both install methods open, with the close they defer. */
    method InstallNode(node: Node, role: Role, primaryIP: string) returns (err: Option<InstallError>, ghost run: NodeRun)
      requires assets.Valid()
      modifies ssh, assets, assets.fs
      ensures assets.Valid()
      ensures run.node == node && run.role == role
      ensures ssh.log == old(ssh.log) + RunEvents(cfg.cluster, primaryIP, run, ssh.fails)
      ensures err.None? <==> RunOk(cfg.cluster, primaryIP, run, ssh.fails)
      ensures run.bin.Some? <==> !ssh.fails(Dial(run)) && AllSucceed(Host(run), PrepareSteps(cfg.cluster.dataDir), ssh.fails)
      ensures ResolvedAs(run, cfg.assets.k3sAirgapTarball, ssh.fails, old(BinaryResolution()), old(TarballResolution()))
    {
      run := NodeRun(node, role, None, None);
      ghost var bin, img := BinaryResolution(), TarballResolution();
      var connected := ssh.Perform(Event(RemoteHost(node.ip), Connect(UserOf(node), node.port, ForInstall)));
      if !connected {
        RefusedRun(cfg.cluster, primaryIP, run, ssh.fails);
        return Some(Unreachable(node.ip)), run;
      }
      assert BinaryResolution() == bin && TarballResolution() == img;
      err, run := Session(node, role, primaryIP);
      ConnectedRun(cfg.cluster, primaryIP, run, ssh.fails);
      Regroup(old(ssh.log), [Dial(run)], Executed(Host(run), Plan(cfg.cluster, primaryIP, run), ssh.fails) + [Event(Host(run), Close)]);
    }

    /** Once connected: provision the node, then the deferred close. */
    method Session(node: Node, role: Role, primaryIP: string) returns (err: Option<InstallError>, ghost run: NodeRun)
      requires assets.Valid()
      modifies ssh, assets, assets.fs
      ensures assets.Valid()
      ensures run.node == node && run.role == role
      ensures ssh.log == old(ssh.log) + (Executed(Host(run), Plan(cfg.cluster, primaryIP, run), ssh.fails) + [Event(Host(run), Close)])
      ensures err.None? <==> Binary(run).Some? && AllSucceed(Host(run), Plan(cfg.cluster, primaryIP, run), ssh.fails)
      ensures run.bin.Some? <==> AllSucceed(Host(run), PrepareSteps(cfg.cluster.dataDir), ssh.fails)
      ensures ResolvedAs(run, cfg.assets.k3sAirgapTarball, ssh.fails, old(BinaryResolution()), old(TarballResolution()))
    {
      err, run := Provision(node, role, primaryIP);
      ghost var ex := Executed(Host(run), Plan(cfg.cluster, primaryIP, run), ssh.fails);
      var _ := ssh.Perform(Event(RemoteHost(node.ip), Close));
      Regroup(old(ssh.log), ex, [Event(Host(run), Close)]);
    }

    /** installServer: connect with the node's user, provision it as a server, close. */
    method InstallServer(node: Node, primaryIP: string, isPrimary: bool) returns (err: Option<InstallError>, ghost run: NodeRun)
      requires assets.Valid()
      modifies ssh, assets, assets.fs
      ensures assets.Valid()
      ensures run.node == node && run.role == (if isPrimary then Primary else Secondary)
      ensures ssh.log == old(ssh.log) + RunEvents(cfg.cluster, primaryIP, run, ssh.fails)
      ensures err.None? <==> RunOk(cfg.cluster, primaryIP, run, ssh.fails)
      ensures run.bin.Some? <==> !ssh.fails(Dial(run)) && AllSucceed(Host(run), PrepareSteps(cfg.cluster.dataDir), ssh.fails)
      ensures ResolvedAs(run, cfg.assets.k3sAirgapTarball, ssh.fails, old(BinaryResolution()), old(TarballResolution()))
    {
      err, run := InstallNode(node, if isPrimary then Primary else Secondary, primaryIP);
    }

    /** installAgent: connect with the node's user, provision it as an agent, close. */
    method InstallAgent(node: Node, primaryIP: string) returns (err: Option<InstallError>, ghost run: NodeRun)
      requires assets.Valid()
      modifies ssh, assets, assets.fs
      ensures assets.Valid()
      ensures run.node == node && run.role == Agent
      ensures ssh.log == old(ssh.log) + RunEvents(cfg.cluster, primaryIP, run, ssh.fails)
      ensures err.None? <==> RunOk(cfg.cluster, primaryIP, run, ssh.fails)
      ensures run.bin.Some? <==> !ssh.fails(Dial(run)) && AllSucceed(Host(run), PrepareSteps(cfg.cluster.dataDir), ssh.fails)
      ensures ResolvedAs(run, cfg.assets.k3sAirgapTarball, ssh.fails, old(BinaryResolution()), old(TarballResolution()))
    {
      err, run := InstallNode(node, Agent, primaryIP);
    }

    /**
     * downloadKubeconfig: the data-dir location, then the fallback; the
     * document is patched to point at the primary and written locally.
     */
    method DownloadKubeconfig(primary: Node) returns (err: Option<InstallError>)
      modifies ssh
      ensures ssh.log == old(ssh.log) + KubeconfigRun(cfg.cluster, primary, ssh.fails, ssh.served).0
      ensures err.None? <==> KubeconfigRun(cfg.cluster, primary, ssh.fails, ssh.served).1
    {
      var m := RemoteHost(primary.ip);
      var connected := ssh.Perform(KubeconfigDial(primary));
      if !connected {
        return Some(Unreachable(primary.ip));
      }
      var content := FetchKubeconfig(primary);
      ghost var tried := Tried(cfg.cluster, primary, ssh.fails);
      Regroup(old(ssh.log), [KubeconfigDial(primary)], tried);
      if content.None? {
        var _ := ssh.Perform(Event(m, Close));
        return Some(NoKubeconfig);
      }
      var modified, replaced := Kubeconfig.ReplaceKubeconfigServer(content.value, primary.ip);
      if modified.Failure? {
        var _ := ssh.Perform(Event(m, Close));
        return Some(BadKubeconfig(modified.error));
      }
      var saved := ssh.Perform(Event(Local, WriteFile(LocalKubeconfig, KubeconfigFile(modified.value))));
      var _ := ssh.Perform(Event(m, Close));
      if !saved {
        return Some(SaveFailed);
      }
      return None;
    }

    /** The data-dir kubeconfig, or the fallback when that cannot be read. */
    method FetchKubeconfig(primary: Node) returns (content: Option<Result<Kubeconfig.Document, string>>)
      modifies ssh
      ensures ssh.log == old(ssh.log) + Tried(cfg.cluster, primary, ssh.fails)
      ensures content == Fetched(cfg.cluster, primary, ssh.fails, ssh.served)
    {
      var m := RemoteHost(primary.ip);
      content := ssh.Fetch(Event(m, Download(CredPath(cfg.cluster.dataDir))));
      if content.None? {
        content := ssh.Fetch(Event(m, Download(FallbackKubeconfig)));
      }
    }

    /**
     * Apply: no servers is an error; otherwise the servers in order (the
     * first as primary), then the agents, stopping at the first node that
     * fails; after a full run the kubeconfig is fetched, and its failure
     * does not fail the run.
     */
    method Apply() returns (err: Option<InstallError>, ghost runs: seq<NodeRun>)
      requires assets.Valid()
      modifies ssh, assets, assets.fs
      ensures assets.Valid()
      ensures |cfg.servers| == 0 ==>
        err == Some(NoServers) && runs == [] && ssh.log == old(ssh.log)
        && assets.downloadedFiles == old(assets.downloadedFiles)
        && assets.fs.files == old(assets.fs.files) && assets.fs.dirs == old(assets.fs.dirs)
      ensures |cfg.servers| > 0 && err.Some? ==>
        Halted(cfg, runs, ssh.fails) && ssh.log == old(ssh.log) + AllEvents(cfg.cluster, cfg.servers[0].ip, runs, ssh.fails)
      ensures |cfg.servers| > 0 && err.None? ==>
        Completed(cfg, runs, ssh.fails)
        && ssh.log == old(ssh.log) + AllEvents(cfg.cluster, cfg.servers[0].ip, runs, ssh.fails)
                      + KubeconfigRun(cfg.cluster, cfg.servers[0], ssh.fails, ssh.served).0
                      + ClusterInfoRun(cfg.servers[0], ssh.fails)
    {
      runs := [];
      if |cfg.servers| == 0 {
        return Some(NoServers), runs;
      }
      var primary := cfg.servers[0];
      err, runs := InstallServers();
      if err.Some? {
        return err, runs;
      }
      err, runs := InstallAgents(runs, old(ssh.log));
      if err.Some? {
        return err, runs;
      }
      ghost var log := ssh.log;
      var _ := DownloadKubeconfig(primary);
      assert ssh.log == log + KubeconfigRun(cfg.cluster, primary, ssh.fails, ssh.served).0;
      ShowClusterInfo(primary);
    }

    /** showClusterInfo: list the nodes from the primary; a failure is only logged. */
    method ShowClusterInfo(primary: Node)
      modifies ssh
      ensures ssh.log == old(ssh.log) + ClusterInfoRun(primary, ssh.fails)
    {
      var m := RemoteHost(primary.ip);
      var connected := ssh.Perform(ClusterInfoDial(primary));
      if !connected {
        return;
      }
      var ok := ssh.Perform(Event(m, Run(GetNodes)));
      if ok {
        var _ := ssh.Perform(Event(m, Run(GetNodes)));
      }
      var _ := ssh.Perform(Event(m, Close));
    }

    /** The server loop of Apply: each server in order, the first as primary, up to the first failure. */
    method InstallServers() returns (err: Option<InstallError>, ghost runs: seq<NodeRun>)
      requires assets.Valid() && |cfg.servers| > 0
      modifies ssh, assets, assets.fs
      ensures assets.Valid()
      ensures ssh.log == old(ssh.log) + AllEvents(cfg.cluster, cfg.servers[0].ip, runs, ssh.fails)
      ensures err.None? ==> |runs| == |cfg.servers| && InOrder(cfg, runs) && AllOk(cfg.cluster, cfg.servers[0].ip, runs, ssh.fails)
      ensures err.Some? ==> Halted(cfg, runs, ssh.fails)
    {
      var primary := cfg.servers[0];
      runs := [];
      var idx := 0;
      while idx < |cfg.servers|
        invariant 0 <= idx <= |cfg.servers| && |runs| == idx
        invariant assets.Valid()
        invariant InOrder(cfg, runs) && AllOk(cfg.cluster, primary.ip, runs, ssh.fails)
        invariant ssh.log == old(ssh.log) + AllEvents(cfg.cluster, primary.ip, runs, ssh.fails)
      {
        var nodeErr, run := InstallServer(cfg.servers[idx], primary.ip, idx == 0);
        ghost var prev := runs;
        Extended(cfg, primary.ip, runs, run, old(ssh.log), ssh.fails);
        runs := runs + [run];
        if nodeErr.Some? {
          assert runs[..|runs| - 1] == prev;
          return nodeErr, runs;
        }
        AllOkSnoc(cfg.cluster, primary.ip, prev, run, ssh.fails);
        idx := idx + 1;
      }
      err := None;
    }

    /** The agent loop of Apply: each agent in order after the servers, up to the first failure. */
    method InstallAgents(ghost before: seq<NodeRun>, ghost base: seq<Event>)
      returns (err: Option<InstallError>, ghost runs: seq<NodeRun>)
      requires assets.Valid() && |cfg.servers| > 0
      requires |before| == |cfg.servers| && InOrder(cfg, before) && AllOk(cfg.cluster, cfg.servers[0].ip, before, ssh.fails)
      requires ssh.log == base + AllEvents(cfg.cluster, cfg.servers[0].ip, before, ssh.fails)
      modifies ssh, assets, assets.fs
      ensures assets.Valid()
      ensures ssh.log == base + AllEvents(cfg.cluster, cfg.servers[0].ip, runs, ssh.fails)
      ensures err.None? ==> Completed(cfg, runs, ssh.fails)
      ensures err.Some? ==> Halted(cfg, runs, ssh.fails)
    {
      var primary := cfg.servers[0];
      runs := before;
      var j := 0;
      while j < |cfg.agents|
        invariant 0 <= j <= |cfg.agents| && |runs| == |cfg.servers| + j
        invariant assets.Valid()
        invariant InOrder(cfg, runs) && AllOk(cfg.cluster, primary.ip, runs, ssh.fails)
        invariant ssh.log == base + AllEvents(cfg.cluster, primary.ip, runs, ssh.fails)
      {
        var nodeErr, run := InstallAgent(cfg.agents[j], primary.ip);
        ghost var prev := runs;
        Extended(cfg, primary.ip, runs, run, base, ssh.fails);
        runs := runs + [run];
        if nodeErr.Some? {
          assert runs[..|runs| - 1] == prev;
          return nodeErr, runs;
        }
        AllOkSnoc(cfg.cluster, primary.ip, prev, run, ssh.fails);
        j := j + 1;
      }
      err := None;
    }
  }
}
