# k3air installer core, modelled in Dafny

k3air installs an offline (air-gapped) k3s cluster over SSH. The user declares
the nodes in `init.yaml`. This project models the parts of k3air that decide
what happens to those nodes:

- **Loading and validation** (`config.dfy`, `net.dfy`): the defaults that
  `config.Load` fills in, and `Validate`. Validate accepts only two valid,
  disjoint IPv4 CIDR ranges, and a parseable IP address on every server and
  agent.
- **Assets** (`assets.dfy`): the AssetManager. It resolves the k3s binary
  and the image tarball from a local path or a URL, downloads a URL into its
  temp directory, records what it downloaded, and removes the directory on
  cleanup. The file system is a class with a map of files and a set of
  directories. The web is a function from URL to response.
- **Unit generation** (`units.dfy`): the k3s server and agent command lines,
  the systemd unit around them, the data directory the uninstall script is
  rendered with, and the integer part of `formatBytes`.
- **The kubeconfig patch** (`kubeconfig.dfy`): the rewrite of
  `clusters[0].cluster.server` from 127.0.0.1 to the primary's address. The
  kubeconfig is given an explicit partial schema.
- **Orchestration** (`install.dfy`, `remote.dfy`). `Apply` installs the
  servers in order, then the agents, stopping at the first failure, then
  fetches the kubeconfig from the primary and lists the cluster's nodes
  from it. Every SSH session and local write
  is an `Event` appended to a `Recorder` log. A fixed oracle says which
  events fail and what a successful download holds. A connection event
  records its purpose, so the primary's kubeconfig session and its
  node-listing session are different events from its installation session. Each node's events are
  proved equal to a specification function of the configuration and the
  oracle: its connection, the prefix of its plan that ran, and the deferred
  close.

`text.dfy` holds string splitting, joining, replacement and decimal numbers.
`wrappers.dfy` holds `Option` and `Result`.

Two behaviours of the Go code are worth noting:

- Only status 200 counts as success (assets.go:122); other 2xx codes are
  errors.
- A tarball that cannot be resolved is skipped with a warning
  (install.go:258-274).

## Model

| member | source | states |
|---|---|---|
| Net.CidrsEqualIffSamePrefix | internal/config/config.go:136-138 | two prefix networks are equal exactly when they have the same network address and prefix length |
| Net.BytesEqual | internal/config/config.go:141-151 | the loop answers true exactly when the two byte sequences are equal (length and every byte) |
| Net.OverlapIffSharedAddress | internal/config/config.go:154-156 | "either contains the other's network address" holds exactly when some IPv4 address lies in both ranges |
| Net.MasksNested | internal/config/config.go:154-156 | a shorter CIDR mask is contained bitwise in a longer one, which is why checking the two network addresses suffices |
| Net.ParseCIDRGivesPrefixNetwork | internal/config/config.go:127-133 | whatever net.ParseCIDR accepts is a canonical prefix network: a CIDR mask with the host bits of the address cleared |
| Net.CIDRRoundTrip | internal/config/config.go:127-133 | every canonical IPv4 prefix network printed as a.b.c.d/n parses back to itself |
| Net.IPv4RoundTrip | internal/config/config.go:159-167 | every IPv4 address printed in dotted-decimal form parses back to the same four bytes |
| Config.ValidateNodeIP | internal/config/config.go:159-167 | a node passes exactly when its address parses as an IP; the "empty" error is given exactly when the address is empty |
| Config.CidrCheckAcceptsDisjoint | internal/config/config.go:90-109 | the range checks pass exactly when both ranges parse and no IPv4 address lies in both, so identical and overlapping pairs are both refused |
| Config.SameReportedBeforeOverlap | internal/config/config.go:101-104 | two ranges that parse to the same network are reported as "the same", not as overlapping |
| Config.FirstBadNodeIsFirst | internal/config/config.go:111-121 | the error names the first node in list order whose address is bad, under its kind and name |
| Config.FirstBadNodeNone | internal/config/config.go:111-121 | no node error exactly when every node's address is valid |
| Config.FirstBadNodeFound | internal/config/config.go:111-121 | a reported node error comes from a node whose predecessors are all valid |
| Config.ValidationAccepts | internal/config/config.go:90-124 | Validate accepts exactly when the ranges are valid and disjoint and every server and agent address parses |
| Config.Validate | internal/config/config.go:90-124 | the method's error is the specified one: ranges first, then servers in order, then agents in order; it changes nothing |
| Config.CheckNodes | internal/config/config.go:112-121 | the node loop returns the first bad node of the list, or nothing |
| Config.Message | internal/config/config.go:113-120 | a node error's message starts with "server NAME: " or "agent NAME: " |
| Config.DefaultsFillOnlyGaps | internal/config/config.go:54-82 | after loading, no default-bearing field is empty and no port is 0; fields that were set and every other field are kept as they were |
| Config.DefaultsIdempotent | internal/config/config.go:54-82 | filling the defaults into an already loaded configuration changes nothing |
| Config.FillCluster | internal/config/config.go:54-65 | the four cluster ifs give the defaulted cluster settings |
| Config.FillAssets | internal/config/config.go:66-71 | the two asset ifs give the defaulted asset sources |
| Config.DefaultPorts | internal/config/config.go:72-82 | every node keeps its position and fields; a port of 0 becomes 22 and any other port is kept |
| Config.ApplyDefaults | internal/config/config.go:54-82 | the method's result is the defaulted configuration |
| Config.Load | internal/config/config.go:45-87 | Load hands back the defaulted configuration together with exactly Validate's verdict on it |
| Assets.FilenameFromURL | internal/install/assets.go:24-34 | the file name taken from a URL never contains a slash |
| Assets.FilenameOfURL | internal/install/assets.go:24-34 | for https://host/dir/name, without a query or fragment, the file name is the last path segment |
| Assets.TrailingSlashNoFilename | internal/install/assets.go:24-34 | a URL whose path ends in "/" yields no file name |
| Assets.HostOnlyNoFilename | internal/install/assets.go:24-34 | a URL with only a host yields no file name |
| Assets.DefaultsAreLocal | internal/install/assets.go:18-21 | the default binary and tarball names are local paths, not URLs |
| Assets.HintIff | internal/install/assets.go:75-88 | a missing source gets the binary hint exactly for "k3s" or "./k3s", and the tarball hint exactly for the default tarball name with or without "./"; a hint is never empty text |
| Assets.LocalResult | internal/install/assets.go:71-92 | a local source is returned unchanged exactly when it exists; a missing one is reported with its hint |
| Assets.Fetched | internal/install/assets.go:116-146 | a response counts as fetched exactly when the server answered 200 and the body was copied completely |
| Assets.DownloadSucceeds | internal/install/assets.go:97-149 | a download succeeds exactly when the URL has a file name, the file can be created and the reply is 200 and complete; the file is then inside the temp directory, directly under it, and holds the body |
| Assets.OnlyStatusOK | internal/install/assets.go:122-124 | any status other than 200 is an error, whatever the body |
| Assets.NoFilenameTouchesNothing | internal/install/assets.go:98-101 | a URL without a file name fails before anything is created |
| Assets.ParentOfJoin | internal/install/assets.go:103 | the downloaded file's path lies in the temp directory, with the temp directory as its parent |
| Assets.AssetManager.Download | internal/install/assets.go:97-149 | result and files are the specified ones; directories are untouched |
| Assets.AssetManager.SaveTo | internal/install/assets.go:103-146 | creating the file and then receiving into it gives the specified result and file map |
| Assets.AssetManager.Receive | internal/install/assets.go:116-146 | the file holds the body on success and is left as it was on failure |
| Assets.AssetManager.ResolveAsset | internal/install/assets.go:58-94 | a URL is downloaded and, on success only, its path is appended to downloadedFiles; a local source leaves the manager and file system untouched and gives the local result; the result and the new files are those of Resolution on the state before |
| Assets.ResolutionSucceeds | internal/install/assets.go:58-94 | a successful resolution of a local source is that path, which exists; of a URL, the file named after the URL under the temp directory, holding the body of a 200 reply |
| Assets.AssetManager.Cleanup | internal/install/assets.go:152-162 | with no temp directory, nothing happens; otherwise the temp directory, every downloaded file and every file and directory under it is gone, and the other files and directories are kept; a failure changes nothing |
| Assets.NewAssetManager | internal/install/assets.go:43-52 | given a name not yet in use, as os.MkdirTemp picks one, it succeeds exactly when the temp directory can be made; the new manager owns it, has downloaded nothing, and no existing file lies inside it; the temp directory is the only directory added, and no file or other directory changes |
| Assets.FileSystem.RemoveAll | internal/install/assets.go:157 | removing a directory drops it and everything under it and keeps everything else |
| Units.ServerRoleFlags | internal/install/install.go:299-306 | the primary's flags start with --cluster-init and contain no --server; every other server's flags start with --server https://PRIMARY:6443 and contain no --cluster-init; --embedded-registry is present exactly when the cluster asks for it |
| Units.ServerFlagValues | internal/install/install.go:307-340 | every flag of a server's command line carries exactly the configured values: empty settings are left out, lists give one flag per item, and the token is always passed |
| Units.ServerFlagOrder | internal/install/install.go:302-340 | a server's flags appear in the fixed order: role, flannel backend, the two ranges, data dir, node name, registry switch, TLS SANs, disables, labels, token |
| Units.ServerTokenLast | internal/install/install.go:340 | the token is a server's last flag and appears nowhere else |
| Units.AgentFlagNames | internal/install/install.go:344-361 | an agent starts with --server https://PRIMARY:6443 and gets only the server, data dir, node name, label and token flags, never a control-plane flag |
| Units.AgentFlagValues | internal/install/install.go:344-361 | every flag of an agent's command line carries exactly the configured values |
| Units.AgentTokenLast | internal/install/install.go:359 | the token is an agent's last flag and appears nowhere else |
| Units.ArgumentsStart | internal/install/install.go:302-306 | the primary's command starts "server --cluster-init"; a secondary's starts "server --server URL" and an agent's "agent --server URL" |
| Units.ServerArguments | internal/install/install.go:299-339 | the argument loop builds exactly the specified words of the server's flags before the token |
| Units.AgentArguments | internal/install/install.go:344-360 | the argument loop builds exactly the words of the agent's flags |
| Units.AppendRepeated | internal/install/install.go:325-339 | appending one flag per list item yields the words of the repeated flag |
| Units.ServerServiceContent | internal/install/install.go:299-342 | the generated unit is the k3s unit around the command line of the server's specified flags |
| Units.AgentServiceContent | internal/install/install.go:344-362 | the generated unit is the k3s-agent unit around the command line of the agent's specified flags |
| Units.UnitService | internal/install/install.go:401-414 | the method's text is the specified unit text |
| Units.UnitLayout | internal/install/install.go:401-414 | the unit has exactly ten lines plus a final newline, with the name on the Description line and the command on the ExecStart line |
| Units.UnitTextInjective | internal/install/install.go:401-414 | the unit text determines the name and the command: different inputs give different units |
| Units.UninstallInputs | internal/install/install.go:504-508 | the uninstall script is rendered with the configured data dir, or /var/lib/rancher/k3s when none is set; never with an empty one |
| Units.UninstallMatchesService | internal/install/install.go:532-536 | once loaded, the uninstall script removes the same data dir that the server and agent units pass to k3s |
| Units.FormatBytes | internal/install/install.go:286-296 | sizes under 1024 are shown in bytes; otherwise the divisor is 1024^(exp+1), the scaled value is in [1, 1024) and the unit letter is "KMGTPE"[exp] |
| Kubeconfig.GetSetAtSame | internal/install/install.go:483-496 | writing at an existing path and reading it back gives what was written |
| Kubeconfig.GetSetAtOther | internal/install/install.go:483-496 | writing a string at a path leaves every path that is not a prefix of it unchanged |
| Kubeconfig.ReplacesIff | internal/install/install.go:486-492 | the patch reports a replacement exactly when the server address exists, contains 127.0.0.1, and the new address differs from 127.0.0.1 |
| Kubeconfig.PatchServer | internal/install/install.go:474-501 | after the patch the server address has 127.0.0.1 replaced by the primary's address; a document without a server address is unchanged |
| Kubeconfig.PatchFrame | internal/install/install.go:474-501 | the patch changes nothing but clusters[0].cluster.server |
| Kubeconfig.ReplaceKubeconfigServer | internal/install/install.go:474-501 | the shape-checking walk returns the patched document and reports whether it changed; a decode error passes through with nothing replaced |
| Text.ReplaceAllChanges | internal/install/install.go:488-489 | replacing every occurrence changes the text exactly when the pattern occurs and the replacement differs from it |
| Remote.Recorder.Perform | internal/install/install.go:416-422 | every attempted action is logged, and succeeds as the oracle says |
| Remote.Recorder.Fetch | internal/install/install.go:440-450 | every attempted download is logged; a failed one gives nothing, otherwise the served content |
| Install.UserOf | internal/install/install.go:81-84 | the SSH user is the configured one, or root; never empty |
| Install.ExecutedIsPrefix | internal/install/install.go:99-147 | running a list of steps performs a prefix of it: all of it when every step succeeds, otherwise up to and including the first failing step |
| Install.ExecutedAppend | internal/install/install.go:99-147 | running two lists of steps in sequence runs the second only when the first succeeded entirely |
| Install.RolesFromPositions | internal/install/install.go:58-71 | position 0 is the primary; the other servers are secondaries; every agent comes after the servers |
| Install.KubectlCopyOnlyOnServers | internal/install/install.go:145-147 | the kubectl copy is in a node's plan exactly when it is a server and its binary was resolved |
| Install.TarballFailureSkipped | internal/install/install.go:258-274 | a tarball that cannot be resolved is skipped: plan, events and outcome are as if none were configured |
| Install.ConnectionClosed | internal/install/install.go:85-89 | a session that connected is closed, as its last event and only there |
| Install.SuccessfulRunIsWholePlan | internal/install/install.go:80-150 | a node that succeeds goes through its connection, every step of its plan in order, then the close |
| Install.AllEventsOnVisitedNodes | internal/install/install.go:54-71 | every event of the installation happens on one of the nodes visited so far |
| Install.PlanHasNoConnect | internal/install/install.go:80-147 | no step of a node's plan opens a connection; only the dial before it does |
| Install.ExecutedSameOutcomes | internal/install/install.go:416-422 | running steps depends only on the outcomes of those steps |
| Install.KubeconfigRefusalAfterInstall | internal/install/install.go:72-74 | refusing only the kubeconfig connection leaves every node's events and outcome unchanged, and then no kubeconfig is saved: "all nodes installed, kubeconfig connection refused" is a possible run |
| Install.ResolvedBinaryUploaded | internal/install/install.go:240-250 | a node that got a binary has the resolved file in its plan: a local source as given, a URL as its download under the temp directory |
| Install.KubeconfigOrder | internal/install/install.go:424-471 | the data-dir kubeconfig is tried first and the fallback only after it fails; whatever is saved is a downloaded document patched to the primary; a session that connected is closed last |
| Install.Installer.RunAll | internal/install/install.go:416-422 | running steps logs exactly the executed prefix and succeeds exactly when every step does |
| Install.Installer.PrepareNode | internal/install/install.go:214-234 | the three directories are made in order, stopping at the first failure |
| Install.Installer.UploadAssets | internal/install/install.go:236-284 | the binary is what resolving the configured binary source yields; an unresolvable binary stops before any upload; otherwise binary, chmod, tarball and registries are run in order; the tarball is resolved exactly when one is configured and the binary and chmod succeeded, and it is what resolving the configured tarball yields after the binary's resolution |
| Install.Installer.UploadResolved | internal/install/install.go:240-281 | with the binary resolved, the log holds the executed asset steps, success means all of them ran, and the tarball is resolved exactly when configured and the binary steps succeeded, as the resolution of its source |
| Install.Installer.UploadOptional | internal/install/install.go:258-281 | the tarball and registry steps run in order; the tarball is resolved exactly when it is configured, as the resolution of its source |
| Install.Installer.UploadTarball | internal/install/install.go:258-274 | the tarball is resolved exactly when one is configured, giving the resolution of its source, and uploaded only when resolved |
| Install.Installer.InstallService | internal/install/install.go:107-147 | uninstall script, chmod, unit, daemon-reload, enable, restart and, on servers only, the kubectl copy run in that order, stopping at the first failure |
| Install.Installer.Provision | internal/install/install.go:99-147 | after the connection, a node's log is the executed prefix of its plan, it succeeds exactly when the binary resolved and every step ran, the binary is resolved exactly when preparation succeeded, and the binary and tarball recorded are the resolutions of the configured sources |
| Install.Installer.Deploy | internal/install/install.go:102-147 | after preparation, the assets and the service steps run, it succeeds exactly when the binary resolved and all steps ran, and the binary and tarball recorded are the resolutions of the configured sources |
| Install.Installer.Session | internal/install/install.go:89-147 | once connected, the node is provisioned and then closed, with the plan's executed prefix between, and the resolutions of the configured sources recorded |
| Install.Installer.InstallNode | internal/install/install.go:80-212 | a node's events are its specified run events, it succeeds exactly when the run is successful, and the binary and tarball it uses are the resolutions of the configured sources |
| Install.Installer.InstallServer | internal/install/install.go:80-150 | a server is installed as the primary or a secondary, with the specified events and outcome, from the resolutions of the configured sources |
| Install.Installer.InstallAgent | internal/install/install.go:152-212 | an agent is installed in the agent role, with the specified events and outcome, from the resolutions of the configured sources |
| Install.Installer.FetchKubeconfig | internal/install/install.go:436-450 | the fallback download is attempted only after the first fails; the content is that of the last attempt |
| Install.Installer.DownloadKubeconfig | internal/install/install.go:424-471 | the log and the outcome are those of the specified kubeconfig run |
| Install.Installer.InstallServers | internal/install/install.go:59-65 | servers are installed in order until one fails; the log is exactly their events |
| Install.Installer.InstallAgents | internal/install/install.go:66-71 | agents are installed in order after the servers until one fails |
| Install.ClusterInfoShape | internal/install/install.go:364-382 | showClusterInfo stays on the primary: it connects first, closes last when connected, runs only `kubectl get nodes`, and runs it a second time exactly when the first succeeded |
| Install.Installer.ShowClusterInfo | internal/install/install.go:364-382 | the log gains exactly the specified node-listing session, whatever fails |
| Install.Installer.Apply | internal/install/install.go:54-78 | no servers: an error, with the log, the downloaded files and the file system untouched; otherwise every node is visited in order, servers then agents, and on a failure no later node is attempted; on success the kubeconfig is fetched and the nodes are listed, and whether either works does not change the result |

## Left out

- IPv6 addresses and ranges are not modelled. net.ParseIP and net.ParseCIDR are modelled for IPv4 dotted-decimal literals only; leading-zero octets are refused, as in Go.
- Net.ParseIP: accepts IPv4 literals only, so an IPv6 node address that Go accepts is refused by the model.
- url.Parse is not modelled in full: percent-escapes, user info and ports are not decoded. The file name is the last segment of the path, which runs up to '?' or '#'.
- filepath.Join is modelled as PathJoin, without lexical cleaning of "..", "." or doubled slashes.
- Reading init.yaml and YAML decoding are outside the model: Config.Load takes the decoded value. The kubeconfig's decoding is also an input, and a YAML encoding error on the patched document is not modelled.
- The uninstall script's template text and its template errors are left out. The uploaded script is recorded by the data it is rendered with (UninstallData), and the unit by its inputs; Units.UnitContent gives the unit's text.
- Commands are recorded as the Command datatype; Remote.CommandText gives the exact text. runCmd's wording of its error is not modelled.
- The SSH client (internal/sshclient/sshclient.go) is not part of this model: authentication, host keys, timeouts and stream capture are replaced by an oracle that says which events fail.
- The HTTP client's 30-minute timeout and the progress bar are not modelled. A failed GET and an incomplete copy are both parts of the response value.
- Assets.AssetManager.Receive: a copy that fails part-way leaves the file empty in the model, where Go leaves the bytes copied so far.
- Assets.FileSystem.RemoveAll is all-or-nothing. os.RemoveAll can remove part of a tree before failing.
- Assets.Message: the bad-status message prints the numeric status code; Go prints resp.Status, e.g. "404 Not Found".
- The random part of os.MkdirTemp's name is a parameter of Assets.NewAssetManager, which requires that no directory or file uses that name yet, as os.MkdirTemp guarantees by retrying.
- Logging (slog), console colours (green), printSuccessSummary, the file-size log lines and the printing of showClusterInfo's node list are output only and are left out, as is the two-second settle delay. showClusterInfo's SSH session itself is modelled.
- Units.FormatBytes: models the choice of unit and divisor; the "%.1f" floating-point text is left out.
- The oracle is keyed by event content, not by position: two identical events (for instance two node entries with the same address, user and port) share one outcome. The kubeconfig session carries its own purpose tag, so it does not share the outcome of the primary's installation session.
- Install.Installer.Apply: each node's binary and tarball are stated, by InstallNode, as the resolutions against the asset state when that node starts; Apply's contract does not chain those asset states from node to node.
- Closing a connection is recorded as an event, and its error is ignored, as in Go.
- NewInstaller and Installer.Cleanup only build an Installer and call AssetManager.Cleanup; the model's Install.Installer constructor takes the parts directly.
- main.go (command-line parsing), internal/version/version.go and internal/config/template.go are not part of this model.
