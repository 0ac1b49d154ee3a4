/**
 * The kubeconfig patch that points a downloaded kubeconfig at the primary
 * server: the parsed document, with an explicit partial schema, and the
 * rewrite of `clusters[0].cluster.server`.
 */
module Kubeconfig {
  import opened Wrappers
  import opened Text

  /**
   * A decoded YAML value, as far as the patch looks at it: a string, a
   * mapping, a sequence, or any other scalar (numbers, booleans, null).
   */
  datatype Value =
    | Str(s: string)
    | Mapping(fields: map<string, Value>)
    | List(items: seq<Value>)
    | Other

  /** The top level of a kubeconfig: a mapping from keys to values. */
  type Document = map<string, Value>

  /** One step of a path into a document: a mapping key or a sequence index. */
  datatype Step = Key(k: string) | Index(i: nat)

  /** The path of the API server address: `clusters[0].cluster.server`. */
  const ServerPath: seq<Step> := [Key("clusters"), Index(0), Key("cluster"), Key("server")]

  /** The loopback address k3s writes into the kubeconfig it generates. */
  const Loopback := "127.0.0.1"

  /** The value at a path, if every level of the path exists and has the right shape. */
  function Get(v: Value, p: seq<Step>): Option<Value>
    decreases |p|
  {
    if p == [] then Some(v)
    else match (p[0], v)
      case (Key(k), Mapping(m)) => if k in m then Get(m[k], p[1..]) else None
      case (Index(i), List(xs)) => if i < |xs| then Get(xs[i], p[1..]) else None
      case _ => None
  }

  /** The value `v` with the value at path `p` replaced by `n`; unchanged where the path is missing. */
  function SetAt(v: Value, p: seq<Step>, n: Value): Value
    decreases |p|
  {
    if p == [] then n
    else match (p[0], v)
      case (Key(k), Mapping(m)) => if k in m then Mapping(m[k := SetAt(m[k], p[1..], n)]) else v
      case (Index(i), List(xs)) => if i < |xs| then List(xs[i := SetAt(xs[i], p[1..], n)]) else v
      case _ => v
  }

  /** The server address of a document, when the whole path exists and ends in a string. */
  function Server(doc: Document): Option<string> {
    match Get(Mapping(doc), ServerPath)
    case Some(Str(s)) => Some(s)
    case _ => None
  }

  predicate IsPrefix(p: seq<Step>, q: seq<Step>) {
    |p| <= |q| && q[..|p|] == p
  }

  /** Writing at an existing path, then reading it back, gives what was written. */
  lemma {:induction false} GetSetAtSame(v: Value, p: seq<Step>, n: Value)
    requires Get(v, p).Some?
    ensures Get(SetAt(v, p, n), p) == Some(n)
    decreases |p|
  {
    if p != [] {
      match (p[0], v)
      case (Key(k), Mapping(m)) =>
        GetSetAtSame(m[k], p[1..], n);
      case (Index(i), List(xs)) =>
        GetSetAtSame(xs[i], p[1..], n);
    }
  }

  /** Writing at path p leaves every path that is not a prefix of p as it was. */
  lemma {:induction false} GetSetAtOther(v: Value, p: seq<Step>, n: Value, q: seq<Step>)
    requires Get(v, p).Some? && Get(v, p).value.Str? && n.Str?
    requires !IsPrefix(q, p)
    ensures Get(SetAt(v, p, n), q) == Get(v, q)
    decreases |p|
  {
    if p == [] {
      // v and n are both strings and q is not empty: neither has anything below it.
      assert q != [];
    } else if q == [] {
      // the empty path is a prefix of every path
      assert false;
    } else {
      match (p[0], v)
      case (Key(k), Mapping(m)) =>
        if q[0] == Key(k) {
          GetSetAtOther(m[k], p[1..], n, q[1..]);
        }
      case (Index(i), List(xs)) =>
        if q[0] == Index(i) {
          GetSetAtOther(xs[i], p[1..], n, q[1..]);
        }
    }
  }

  /** The server address after the patch: every occurrence of the loopback address replaced by ip. */
  function Patched(server: string, ip: string): string {
    ReplaceAll(server, Loopback, ip)
  }

  /** The patch replaces the server address exactly when the rewrite changes it. */
  predicate Replaces(doc: Document, ip: string) {
    Server(doc).Some? && Patched(Server(doc).value, ip) != Server(doc).value
  }

  /** The document after the patch: the server address rewritten when that changes it. */
  function Patch(doc: Document, ip: string): Document {
    if Replaces(doc, ip) then SetAt(Mapping(doc), ServerPath, Str(Patched(Server(doc).value, ip))).fields
    else doc
  }

  /** The address changes exactly when it holds the loopback address and ip is a different text. */
  lemma ReplacesIff(doc: Document, ip: string)
    ensures Replaces(doc, ip) <==> Server(doc).Some? && Occurs(Server(doc).value, Loopback) && ip != Loopback
  {
    if Server(doc).Some? {
      ReplaceAllChanges(Server(doc).value, Loopback, ip);
    }
  }

  /** After the patch the server address is the rewritten one; a document without one keeps having none. */
  lemma PatchServer(doc: Document, ip: string)
    ensures Server(doc).Some? ==> Server(Patch(doc, ip)) == Some(Patched(Server(doc).value, ip))
    ensures Server(doc).None? ==> Patch(doc, ip) == doc
  {
    if Replaces(doc, ip) {
      PatchFacts(doc, Patched(Server(doc).value, ip));
    }
  }

  /** The patch touches nothing but the server address: every other path reads the same. */
  lemma PatchFrame(doc: Document, ip: string, q: seq<Step>)
    requires !IsPrefix(q, ServerPath)
    ensures Get(Mapping(Patch(doc, ip)), q) == Get(Mapping(doc), q)
  {
    if Replaces(doc, ip) {
      PatchFacts(doc, Patched(Server(doc).value, ip));
    }
  }

  /**
   * replaceKubeconfigServer: walks `clusters[0].cluster.server`, checking the
   * shape of every level, and stores the rewritten address when it differs
   * from the old one. The decoded document is the parameter; a decode error
   * is passed through with nothing replaced.
   */
  method ReplaceKubeconfigServer(decoded: Result<Document, string>, ip: string)
    returns (modified: Result<Document, string>, replaced: bool)
    ensures decoded.Failure? ==> modified == decoded && !replaced
    ensures decoded.Success? ==> modified == Success(Patch(decoded.value, ip)) && replaced == Replaces(decoded.value, ip)
  {
    if decoded.Failure? {
      return decoded, false;
    }
    var config := decoded.value;
    replaced := false;
    if "clusters" in config && config["clusters"].List? && |config["clusters"].items| > 0 {
      var clusters := config["clusters"].items;
      if clusters[0].Mapping? {
        var firstCluster := clusters[0].fields;
        if "cluster" in firstCluster && firstCluster["cluster"].Mapping? {
          var clusterData := firstCluster["cluster"].fields;
          if "server" in clusterData && clusterData["server"].Str? {
            var serverURL := clusterData["server"].s;
            var newURL := Patched(serverURL, ip);
            assert Server(config) == Some(serverURL);
            if newURL != serverURL {
              clusterData := clusterData["server" := Str(newURL)];
              firstCluster := firstCluster["cluster" := Mapping(clusterData)];
              clusters := clusters[0 := Mapping(firstCluster)];
              config := config["clusters" := List(clusters)];
              replaced := true;
            }
          }
        }
      }
    }
    modified := Success(config);
  }

  /** The facts about writing a string at the server path of a document that has one. */
  lemma PatchFacts(doc: Document, url: string)
    requires Server(doc).Some?
    ensures SetAt(Mapping(doc), ServerPath, Str(url)).Mapping?
    ensures Server(SetAt(Mapping(doc), ServerPath, Str(url)).fields) == Some(url)
    ensures forall q :: !IsPrefix(q, ServerPath) ==>
      Get(SetAt(Mapping(doc), ServerPath, Str(url)), q) == Get(Mapping(doc), q)
  {
    var v := Mapping(doc);
    GetSetAtSame(v, ServerPath, Str(url));
    forall q | !IsPrefix(q, ServerPath)
      ensures Get(SetAt(v, ServerPath, Str(url)), q) == Get(v, q)
    {
      GetSetAtOther(v, ServerPath, Str(url), q);
    }
  }
}
