/**
 * The remote side of an installation, seen from k3air: SSH sessions to the
 * nodes that run commands and receive or hand out files, and the one file
 * written on the local machine. Nothing is carried out; every action is
 * appended to a log, and a fixed oracle says which actions fail and what a
 * successful download yields.
 */
module Remote {
  import opened Wrappers
  import Kubeconfig
  import Units

  /** Where an action takes place: a node reached over SSH, or the machine k3air runs on. */
  datatype Machine = RemoteHost(ip: string) | Local

  /**
   * Content written to a file: plain text, a systemd unit given by the
   * inputs it is generated from (its text is Units.UnitContent(spec)), the
   * uninstall script given by its template data, or a kubeconfig.
   */
  datatype Payload =
    | Text(s: string)
    | ServiceUnit(spec: Units.UnitSpec)
    | UninstallScript(data: Units.UninstallData)
    | KubeconfigFile(doc: Kubeconfig.Document)

  /** A shell command k3air runs on a node; CommandText is the exact text it sends. */
  datatype Command =
    | MakeDir(path: string)
    | MakeExecutable(path: string)
    | DaemonReload
    | EnableService(name: string)
    | RestartService(name: string)
    | CopyToKubectl
    | GetNodes

  function CommandText(c: Command): string {
    match c
    case MakeDir(path) => "mkdir -p " + path
    case MakeExecutable(path) => "chmod +x " + path
    case DaemonReload => "systemctl daemon-reload"
    case EnableService(name) => "systemctl enable " + name
    case RestartService(name) => "systemctl restart " + name
    case CopyToKubectl => "cp /usr/local/bin/k3s /usr/local/bin/kubectl -f"
    case GetNodes => "kubectl get nodes"
  }

  /**
   * Why a connection is opened: every node gets its own session for the
   * installation, and the primary two more, separate ones: one for the
   * kubeconfig and one to show the cluster's nodes.
   */
  datatype Purpose = ForInstall | ForKubeconfig | ForClusterInfo

  datatype Action =
    | Connect(user: string, port: int, purpose: Purpose)
    | Run(cmd: Command)
    | Upload(localPath: string, remotePath: string)
    | UploadBytes(content: Payload, remotePath: string)
    | Download(remotePath: string)
    | WriteFile(path: string, content: Payload)
    | Close

  datatype Event = Event(machine: Machine, action: Action)

  /**
   * The log of everything attempted, in order. `fails` says which attempts
   * fail; `served` is the decoded content of a download that succeeds.
   */
  class Recorder {
    var log: seq<Event>
    const fails: Event -> bool
    const served: Event -> Result<Kubeconfig.Document, string>

    constructor(fails: Event -> bool, served: Event -> Result<Kubeconfig.Document, string>)
      ensures log == [] && this.fails == fails && this.served == served
    {
      log := [];
      this.fails := fails;
      this.served := served;
    }

    /** Attempt one action: it is logged whether or not it succeeds. */
    method Perform(e: Event) returns (ok: bool)
      modifies this
      ensures log == old(log) + [e]
      ensures ok == !fails(e)
    {
      log := log + [e];
      ok := !fails(e);
    }

    /** Attempt a download: nothing on failure, the decoded content otherwise. */
    method Fetch(e: Event) returns (content: Option<Result<Kubeconfig.Document, string>>)
      modifies this
      ensures log == old(log) + [e]
      ensures content == if fails(e) then None else Some(served(e))
    {
      log := log + [e];
      if fails(e) {
        content := None;
      } else {
        content := Some(served(e));
      }
    }
  }
}
