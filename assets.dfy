/**
 * Asset resolution: the k3s binary and the airgap image tarball are given
 * either as a local path or as an http(s) URL. URLs are downloaded into a
 * temporary directory that the manager owns and removes on cleanup.
 *
 * The local file system is a `FileSystem` object whose maps the operations
 * update in place; the web is a fixed function from URL to response.
 */
module Assets {
  import opened Wrappers
  import opened Text
  import Config

  type Bytes = seq<bv8>

  // ---------------------------------------------------------------- URLs

  /** isURL: the source names an http or https resource. */
  predicate IsURL(s: string) {
    HasPrefix(s, "http://") || HasPrefix(s, "https://")
  }

  /** The text before the first `c`, or all of it when there is none. */
  function Before(s: string, c: char): (r: string)
    ensures c !in r && HasPrefix(s, r)
    ensures c !in s ==> r == s
  {
    match IndexOf(s, c)
    case None => s
    case Some(i) => s[..i]
  }

  /** The path of an address after `scheme://`: everything from the first slash, or nothing. */
  function PathAfterAuthority(r: string): string {
    match IndexOf(r, '/')
    case None => ""
    case Some(i) => r[i..]
  }

  /**
   * The Path field url.Parse gives: the fragment and then the query are cut
   * off; for an http(s) address the scheme and the host are dropped; any
   * other string is taken as a relative path.
   */
  function UrlPath(s: string): string {
    var t := Before(Before(s, '#'), '?');
    if HasPrefix(t, "https://") then PathAfterAuthority(t[8..])
    else if HasPrefix(t, "http://") then PathAfterAuthority(t[7..])
    else t
  }

  /** getFilenameFromURL: the last slash-separated segment of the URL path. */
  function FilenameFromURL(s: string): (name: string)
    ensures '/' !in name
  {
    LastPiece(UrlPath(s), '/')
  }

  /** For `https://host/…/name` the file name is `name`. */
  lemma FilenameOfURL(host: string, dir: string, name: string)
    requires '/' !in host && '/' !in name
    requires dir == "" || dir[0] == '/'
    requires '?' !in host + dir + name && '#' !in host + dir + name
    ensures FilenameFromURL("https://" + host + dir + "/" + name) == name
  {
    var s := "https://" + host + dir + "/" + name;
    var rest := dir + "/" + name;
    assert s == "https://" + (host + rest);
    assert '#' !in s && '?' !in s;
    assert s[8..] == host + rest;
    assert host + rest == host + ['/'] + rest[1..];
    IndexOfJoin(host, '/', rest[1..]);
    assert (host + rest)[|host|..] == rest;
    LastPieceOfJoin(dir, name);
  }

  /** A path that ends in a slash has no file name. */
  lemma TrailingSlashNoFilename(s: string)
    requires UrlPath(s) != "" && UrlPath(s)[|UrlPath(s)| - 1] == '/'
    ensures FilenameFromURL(s) == ""
  {
  }

  /** An address with a host and no path has no file name. */
  lemma HostOnlyNoFilename(host: string)
    requires '/' !in host && '?' !in host && '#' !in host
    ensures FilenameFromURL("https://" + host) == ""
  {
    var s := "https://" + host;
    assert '#' !in s && '?' !in s;
    assert s[8..] == host;
  }

  /** The default asset names are local paths, not URLs. */
  lemma DefaultsAreLocal()
    ensures !IsURL(Config.DefaultBinary) && !IsURL(Config.DefaultTarball)
  {
    assert Config.DefaultTarball[0] == 'k';
  }

  // ---------------------------------------------------------------- remediation hints

  /** Which remediation hint a "file not found" error carries. */
  datatype Hint = NoHint | BinaryHint | TarballHint

  /** The text each hint adds to the error message. */
  function HintText(h: Hint): string {
    match h
    case NoHint => ""
    case BinaryHint => "\n\nPlease download k3s binary:\n  wget https://github.com/k3s-io/k3s/releases/download/v1.28.5+k3s1/k3s\n  chmod +x k3s\nOr configure a URL in your init.yaml under assets.k3s-binary"
    case TarballHint => "\n\nPlease download k3s airgap images:\n  wget https://github.com/k3s-io/k3s/releases/download/v1.28.5+k3s1/k3s-airgap-images-amd64.tar.gz\nOr configure a URL in your init.yaml under assets.k3s-airgap-tarball"
  }

  /** The hint for a missing local source: only the two default names get one. */
  function HintFor(source: string): Hint {
    if source == Config.DefaultBinary || source == "./" + Config.DefaultBinary then BinaryHint
    else if source == Config.DefaultTarball || source == "./" + Config.DefaultTarball then TarballHint
    else NoHint
  }

  /** A hint is given exactly for the default binary and tarball names, with or without `./`. */
  lemma HintIff(source: string)
    ensures HintFor(source) == BinaryHint <==> source in {Config.DefaultBinary, "./" + Config.DefaultBinary}
    ensures HintFor(source) == TarballHint <==> source in {Config.DefaultTarball, "./" + Config.DefaultTarball}
    ensures HintFor(source) != NoHint ==> HintText(HintFor(source)) != ""
  {
    assert Config.DefaultBinary != Config.DefaultTarball && "./" + Config.DefaultBinary != "./" + Config.DefaultTarball by {
      assert |Config.DefaultBinary| == 3;
    }
    assert Config.DefaultBinary != "./" + Config.DefaultTarball && "./" + Config.DefaultBinary != Config.DefaultTarball by {
      assert Config.DefaultTarball[0] == 'k';
    }
  }

  // ---------------------------------------------------------------- errors

  datatype AssetError =
    | TempDirFailed
    | NoFilename(url: string)
    | CreateFailed(path: string)
    | RequestFailed(url: string)
    | BadStatus(status: int)
    | CopyFailed
    | DownloadFailed(description: string, cause: AssetError)
    | NotFound(description: string, source: string, hint: Hint)
    | AccessFailed(description: string, source: string)
    | CleanupFailed(dir: string)

  function Message(e: AssetError): string {
    match e
    case TempDirFailed => "failed to create temp directory"
    case NoFilename(url) => "cannot determine filename from URL: " + url
    case CreateFailed(_) => "failed to create temp file"
    case RequestFailed(_) => "download request failed"
    case BadStatus(st) => "download failed with status: " + IntToString(st)
    case CopyFailed => "download failed"
    case DownloadFailed(d, cause) => "failed to download " + d + ": " + Message(cause)
    case NotFound(d, src, hint) => d + " file not found: " + src + HintText(hint)
    case AccessFailed(d, _) => "failed to access " + d
    case CleanupFailed(_) => "cleanup failed"
  }

  // ---------------------------------------------------------------- the local file system

  /** What os.Stat reports about a path. */
  datatype StatResult = Exists | Missing | Denied

  /** A path lies inside a directory. */
  predicate Within(path: string, dir: string) {
    HasPrefix(path, dir + "/")
  }

  /** The directory part of a path: everything before its last slash. */
  function Parent(path: string): string {
    var name := LastPiece(path, '/');
    if |name| == |path| then "" else path[..|path| - |name| - 1]
  }

  lemma ParentOfJoin(dir: string, name: string)
    requires dir != "" && name != "" && '/' !in name
    ensures Parent(PathJoin(dir, name)) == dir
    ensures Within(PathJoin(dir, name), dir)
  {
    var p := PathJoin(dir, name);
    assert p == dir + ['/'] + name;
    LastPieceOfJoin(dir, name);
    assert p[..|p| - |name| - 1] == dir;
  }

  lemma LastPieceOfJoin(dir: string, name: string)
    requires '/' !in name
    ensures LastPiece(dir + "/" + name, '/') == name
  {
    var s := dir + "/" + name;
    var r := LastPiece(s, '/');
    assert s[|s| - |name|..] == name;
    assert s[|s| - |name| - 1] == '/';
    assert |r| == |name|;
    assert r == s[|s| - |r|..];
  }

  /** os.Stat on a file system with these files, directories and denied paths. */
  function StatOf(files: map<string, Bytes>, dirs: set<string>, locked: set<string>, path: string): StatResult {
    if path in locked then Denied
    else if path in files || path in dirs then Exists
    else Missing
  }

  /** os.Create succeeds when the parent directory exists and the path is not denied. */
  predicate CanCreateIn(dirs: set<string>, locked: set<string>, path: string) {
    Parent(path) in dirs && path !in locked
  }

  class FileSystem {
    var files: map<string, Bytes>
    var dirs: set<string>
    /** Paths the process may not touch: access to them is denied. */
    const locked: set<string>

    constructor(files: map<string, Bytes>, dirs: set<string>, locked: set<string>)
      ensures this.files == files && this.dirs == dirs && this.locked == locked
    {
      this.files := files;
      this.dirs := dirs;
      this.locked := locked;
    }

    /** os.Stat: a denied path reports an access error, an absent one "does not exist". */
    function Stat(path: string): StatResult
      reads this
    {
      StatOf(files, dirs, locked, path)
    }

    predicate CanCreate(path: string)
      reads this
    {
      CanCreateIn(dirs, locked, path)
    }

    /** os.MkdirTemp under a name the caller picked. */
    method MkdirTemp(name: string) returns (ok: bool)
      modifies this
      ensures ok == (name !in locked)
      ensures files == old(files)
      ensures dirs == if ok then old(dirs) + {name} else old(dirs)
    {
      ok := name !in locked;
      if ok {
        dirs := dirs + {name};
      }
    }

    /** os.Create: creates the file empty, or truncates it. */
    method Create(path: string) returns (ok: bool)
      modifies this
      ensures ok == old(CanCreate(path))
      ensures dirs == old(dirs)
      ensures files == if ok then old(files)[path := []] else old(files)
    {
      ok := CanCreate(path);
      if ok {
        files := files[path := []];
      }
    }

    /** Writing the downloaded body into a created file. */
    method Write(path: string, data: Bytes)
      modifies this
      ensures dirs == old(dirs)
      ensures files == old(files)[path := data]
    {
      files := files[path := data];
    }

    /** os.RemoveAll: the directory and everything inside it, unless access is denied. */
    method RemoveAll(dir: string) returns (ok: bool)
      modifies this
      ensures ok == (dir !in locked)
      ensures ok ==> files == Outside(old(files), dir) && dirs == OutsideDirs(old(dirs), dir)
      ensures !ok ==> files == old(files) && dirs == old(dirs)
    {
      ok := dir !in locked;
      if ok {
        files := Outside(files, dir);
        dirs := OutsideDirs(dirs, dir);
      }
    }
  }

  /** The files that are not inside dir (dir itself included). */
  function Outside(files: map<string, Bytes>, dir: string): (r: map<string, Bytes>)
    ensures forall f :: f in r <==> f in files && f != dir && !Within(f, dir)
    ensures forall f :: f in r ==> r[f] == files[f]
  {
    map f | f in files && f != dir && !Within(f, dir) :: files[f]
  }

  function OutsideDirs(dirs: set<string>, dir: string): (r: set<string>)
    ensures forall d :: d in r <==> d in dirs && d != dir && !Within(d, dir)
  {
    set d | d in dirs && d != dir && !Within(d, dir)
  }

  // ---------------------------------------------------------------- the web

  /** The answer to an HTTP GET: no answer at all, or a status and a body read completely or not. */
  datatype Response = Unreachable | Reply(status: int, body: Bytes, complete: bool)

  const StatusOK := 200

  /** The body of a GET, or the error download reports for it. */
  function Fetched(url: string, resp: Response): (r: Result<Bytes, AssetError>)
    ensures r.Success? <==> resp.Reply? && resp.status == StatusOK && resp.complete
  {
    match resp
    case Unreachable => Failure(RequestFailed(url))
    case Reply(status, body, complete) =>
      if status != StatusOK then Failure(BadStatus(status))
      else if !complete then Failure(CopyFailed)
      else Success(body)
  }

  /** Where download saves a URL: the file name from the URL, inside the temp directory. */
  function Target(tempDir: string, url: string): string {
    PathJoin(tempDir, FilenameFromURL(url))
  }

  /** The outcome of download, given whether the target file can be created and the response. */
  function DownloadResult(tempDir: string, url: string, canCreate: bool, resp: Response): Result<string, AssetError> {
    if FilenameFromURL(url) == "" then Failure(NoFilename(url))
    else Saved(Target(tempDir, url), url, canCreate, resp)
  }

  /** The outcome of creating the target file and copying the response into it. */
  function Saved(path: string, url: string, canCreate: bool, resp: Response): Result<string, AssetError> {
    if !canCreate then Failure(CreateFailed(path))
    else match Fetched(url, resp)
      case Success(_) => Success(path)
      case Failure(e) => Failure(e)
  }

  /** The files after download: the created target holds the body, or stays empty after a failed GET. */
  function FilesAfterDownload(files: map<string, Bytes>, tempDir: string, url: string, canCreate: bool, resp: Response): map<string, Bytes> {
    if FilenameFromURL(url) == "" then files
    else FilesAfterSave(files, Target(tempDir, url), url, canCreate, resp)
  }

  function FilesAfterSave(files: map<string, Bytes>, path: string, url: string, canCreate: bool, resp: Response): map<string, Bytes> {
    if !canCreate then files
    else files[path := match Fetched(url, resp) case Success(b) => b case Failure(_) => []]
  }

  /**
   * A download succeeds exactly when the URL has a file name, the file can
   * be created and the server answers 200 with a complete body; the file
   * then lies inside the temp directory and holds the body.
   */
  lemma DownloadSucceeds(files: map<string, Bytes>, tempDir: string, url: string, canCreate: bool, resp: Response)
    ensures DownloadResult(tempDir, url, canCreate, resp).Success? <==>
      FilenameFromURL(url) != "" && canCreate && resp.Reply? && resp.status == StatusOK && resp.complete
    ensures DownloadResult(tempDir, url, canCreate, resp).Success? ==>
      var path := DownloadResult(tempDir, url, canCreate, resp).value;
      && path == PathJoin(tempDir, FilenameFromURL(url))
      && (tempDir != "" ==> Within(path, tempDir) && Parent(path) == tempDir)
      && path in FilesAfterDownload(files, tempDir, url, canCreate, resp)
      && FilesAfterDownload(files, tempDir, url, canCreate, resp)[path] == resp.body
  {
    if DownloadResult(tempDir, url, canCreate, resp).Success? && tempDir != "" {
      ParentOfJoin(tempDir, FilenameFromURL(url));
    }
  }

  /** A status other than 200 is always an error, whatever the body. */
  lemma OnlyStatusOK(tempDir: string, url: string, canCreate: bool, status: int, body: Bytes, complete: bool)
    requires status != StatusOK
    ensures FilenameFromURL(url) != "" && canCreate ==>
      DownloadResult(tempDir, url, canCreate, Reply(status, body, complete)) == Failure(BadStatus(status))
    ensures DownloadResult(tempDir, url, canCreate, Reply(status, body, complete)).Failure?
  {
  }

  /** A URL without a file name fails before any file is created. */
  lemma NoFilenameTouchesNothing(files: map<string, Bytes>, tempDir: string, url: string, canCreate: bool, resp: Response)
    requires FilenameFromURL(url) == ""
    ensures DownloadResult(tempDir, url, canCreate, resp) == Failure(NoFilename(url))
    ensures FilesAfterDownload(files, tempDir, url, canCreate, resp) == files
  {
  }

  /** The outcome of resolving a local path from what os.Stat reports. */
  function LocalResult(st: StatResult, source: string, description: string): (r: Result<string, AssetError>)
    ensures r.Success? <==> st == Exists
    ensures r.Success? ==> r.value == source
    ensures st == Missing ==> r == Failure(NotFound(description, source, HintFor(source)))
  {
    match st
    case Exists => Success(source)
    case Missing => Failure(NotFound(description, source, HintFor(source)))
    case Denied => Failure(AccessFailed(description, source))
  }

  /**
   * What ResolveAsset yields for a source on a file system with these files,
   * directories and denied paths, given the answer the web has for it.
   */
  function Resolution(files: map<string, Bytes>, dirs: set<string>, locked: set<string>, tempDir: string,
                      resp: Response, source: string, description: string): Result<string, AssetError>
  {
    if IsURL(source) then
      var d := DownloadResult(tempDir, source, CanCreateIn(dirs, locked, Target(tempDir, source)), resp);
      if d.Success? then d else Failure(DownloadFailed(description, d.error))
    else LocalResult(StatOf(files, dirs, locked, source), source, description)
  }

  /** The files after ResolveAsset: a URL's target is written, a local source changes nothing. */
  function FilesAfterResolution(files: map<string, Bytes>, dirs: set<string>, locked: set<string>, tempDir: string,
                                resp: Response, source: string): map<string, Bytes>
  {
    if IsURL(source) then FilesAfterDownload(files, tempDir, source, CanCreateIn(dirs, locked, Target(tempDir, source)), resp)
    else files
  }

  /**
   * A resolved source is the source itself when it is a local path, and a
   * file directly inside the temp directory holding the body when it is a URL.
   */
  lemma ResolutionSucceeds(files: map<string, Bytes>, dirs: set<string>, locked: set<string>, tempDir: string,
                           resp: Response, source: string, description: string)
    requires Resolution(files, dirs, locked, tempDir, resp, source, description).Success?
    ensures var path := Resolution(files, dirs, locked, tempDir, resp, source, description).value;
      && (!IsURL(source) ==> path == source && StatOf(files, dirs, locked, source) == Exists)
      && (IsURL(source) ==>
            && path == PathJoin(tempDir, FilenameFromURL(source)) && resp.Reply? && resp.status == StatusOK
            && (tempDir != "" ==> Parent(path) == tempDir)
            && FilesAfterResolution(files, dirs, locked, tempDir, resp, source)[path] == resp.body)
  {
    if IsURL(source) {
      DownloadSucceeds(files, tempDir, source, CanCreateIn(dirs, locked, Target(tempDir, source)), resp);
    }
  }

  // ---------------------------------------------------------------- the manager

  class AssetManager {
    const tempDir: string
    var downloadedFiles: seq<string>
    const fs: FileSystem
    const web: string -> Response

    /** Every file the manager downloaded lies inside its temp directory. */
    ghost predicate Valid()
      reads this
    {
      tempDir != "" ==> forall i :: 0 <= i < |downloadedFiles| ==> Within(downloadedFiles[i], tempDir)
    }

    constructor(fs: FileSystem, web: string -> Response, tempDir: string)
      ensures this.fs == fs && this.web == web && this.tempDir == tempDir
      ensures downloadedFiles == []
      ensures Valid()
    {
      this.fs := fs;
      this.web := web;
      this.tempDir := tempDir;
      downloadedFiles := [];
    }

    /** What ResolveAsset(source, description) yields from the current state. */
    function Resolve(source: string, description: string): Result<string, AssetError>
      reads fs
    {
      Resolution(fs.files, fs.dirs, fs.locked, tempDir, web(source), source, description)
    }

    /** What ResolveAsset(second, description) yields once ResolveAsset(first, …) has run. */
    function ResolveAfter(first: string, second: string, description: string): Result<string, AssetError>
      reads fs
    {
      Resolution(FilesAfterResolution(fs.files, fs.dirs, fs.locked, tempDir, web(first), first),
                 fs.dirs, fs.locked, tempDir, web(second), second, description)
    }

    /** download: fetch a URL into the temp directory. */
    method Download(url: string) returns (r: Result<string, AssetError>)
      modifies fs
      ensures r == DownloadResult(tempDir, url, old(fs.CanCreate(Target(tempDir, url))), web(url))
      ensures fs.files == FilesAfterDownload(old(fs.files), tempDir, url, old(fs.CanCreate(Target(tempDir, url))), web(url))
      ensures fs.dirs == old(fs.dirs)
    {
      var filename := FilenameFromURL(url);
      if filename == "" {
        return Failure(NoFilename(url));
      }
      var localPath := PathJoin(tempDir, filename);
      r := SaveTo(url, localPath);
    }

    /** The rest of download: create the target file, then fetch the URL into it. */
    method SaveTo(url: string, localPath: string) returns (r: Result<string, AssetError>)
      modifies fs
      ensures r == Saved(localPath, url, old(fs.CanCreate(localPath)), web(url))
      ensures fs.files == FilesAfterSave(old(fs.files), localPath, url, old(fs.CanCreate(localPath)), web(url))
      ensures fs.dirs == old(fs.dirs)
    {
      ghost var before := fs.files;
      var created := fs.Create(localPath);
      if !created {
        return Failure(CreateFailed(localPath));
      }
      r := Receive(url, localPath);
      if Fetched(url, web(url)).Success? {
        assert before[localPath := []][localPath := web(url).body] == before[localPath := web(url).body];
      }
    }

    /** The GET of download and the copy of its body into the created file. */
    method Receive(url: string, localPath: string) returns (r: Result<string, AssetError>)
      modifies fs
      ensures r == match Fetched(url, web(url)) case Success(_) => Success(localPath) case Failure(e) => Failure(e)
      ensures Fetched(url, web(url)).Success? ==> fs.files == old(fs.files)[localPath := web(url).body]
      ensures Fetched(url, web(url)).Failure? ==> fs.files == old(fs.files)
      ensures fs.dirs == old(fs.dirs)
    {
      var resp := web(url);
      if resp.Unreachable? {
        return Failure(RequestFailed(url));
      }
      if resp.status != StatusOK {
        return Failure(BadStatus(resp.status));
      }
      if !resp.complete {
        return Failure(CopyFailed);
      }
      fs.Write(localPath, resp.body);
      return Success(localPath);
    }

    /**
     * ResolveAsset: a URL is downloaded and, on success, its local path is
     * appended to downloadedFiles; a local path is returned as it is when it
     * exists, and otherwise reported with a hint for the default names.
     */
    method ResolveAsset(source: string, description: string) returns (r: Result<string, AssetError>)
      requires Valid()
      modifies this, fs
      ensures Valid()
      ensures IsURL(source) ==>
        var d := DownloadResult(tempDir, source, old(fs.CanCreate(Target(tempDir, source))), web(source));
        && r == (if d.Success? then d else Failure(DownloadFailed(description, d.error)))
        && downloadedFiles == (if d.Success? then old(downloadedFiles) + [d.value] else old(downloadedFiles))
        && fs.files == FilesAfterDownload(old(fs.files), tempDir, source, old(fs.CanCreate(Target(tempDir, source))), web(source))
        && fs.dirs == old(fs.dirs)
      ensures !IsURL(source) ==>
        && r == LocalResult(old(fs.Stat(source)), source, description)
        && downloadedFiles == old(downloadedFiles)
        && fs.files == old(fs.files) && fs.dirs == old(fs.dirs)
      ensures r == old(Resolve(source, description))
      ensures fs.files == old(FilesAfterResolution(fs.files, fs.dirs, fs.locked, tempDir, web(source), source))
    {
      if IsURL(source) {
        var localPath := Download(source);
        if localPath.Failure? {
          return Failure(DownloadFailed(description, localPath.error));
        }
        DownloadSucceeds(old(fs.files), tempDir, source, old(fs.CanCreate(Target(tempDir, source))), web(source));
        downloadedFiles := downloadedFiles + [localPath.value];
        return localPath;
      }
      var st := fs.Stat(source);
      if st == Exists {
        return Success(source);
      }
      if st == Missing {
        return Failure(NotFound(description, source, HintFor(source)));
      }
      return Failure(AccessFailed(description, source));
    }

    /**
     * Cleanup: nothing to do without a temp directory; otherwise the whole
     * directory goes, and with it every file the manager downloaded.
     */
    method Cleanup() returns (err: Option<AssetError>)
      requires Valid()
      modifies fs
      ensures tempDir == "" ==> err == None && fs.files == old(fs.files) && fs.dirs == old(fs.dirs)
      ensures tempDir != "" ==> (err == None <==> tempDir !in fs.locked)
      ensures tempDir != "" && err == None ==>
        && tempDir !in fs.dirs
        && (forall i :: 0 <= i < |downloadedFiles| ==> downloadedFiles[i] !in fs.files)
        && fs.files == Outside(old(fs.files), tempDir)
        && fs.dirs == OutsideDirs(old(fs.dirs), tempDir)
      ensures err != None ==> fs.files == old(fs.files) && fs.dirs == old(fs.dirs)
    {
      if tempDir == "" {
        return None;
      }
      var ok := fs.RemoveAll(tempDir);
      if !ok {
        return Some(CleanupFailed(tempDir));
      }
      return None;
    }
  }

  /**
   * NewAssetManager: a manager with a fresh temp directory and nothing
   * downloaded yet. os.MkdirTemp picks a random name that is not in use, so
   * the name given here is one no directory or file has yet.
   */
  method NewAssetManager(fs: FileSystem, web: string -> Response, tempName: string)
    returns (r: Result<AssetManager, AssetError>)
    requires tempName !in fs.dirs && forall p :: p in fs.files ==> !Within(p, tempName)
    modifies fs
    ensures r.Success? <==> tempName !in fs.locked
    ensures r.Success? ==>
      && fresh(r.value) && r.value.Valid()
      && r.value.tempDir == tempName && r.value.downloadedFiles == []
      && r.value.fs == fs && r.value.web == web
      && tempName in fs.dirs
      && (forall p :: p in fs.files ==> !Within(p, tempName))
    ensures fs.files == old(fs.files)
    ensures fs.dirs == if r.Success? then old(fs.dirs) + {tempName} else old(fs.dirs)
  {
    var ok := fs.MkdirTemp(tempName);
    if !ok {
      return Failure(TempDirFailed);
    }
    var am := new AssetManager(fs, web, tempName);
    return Success(am);
  }
}
