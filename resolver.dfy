/** `download_audio` of both backends: turning a task's audio reference into
    a local path. Each variant is given twice: as a specification function that
    composes pure probes ("the first hit wins", then the download fallback),
    and as the imperative method that mirrors the source's early returns and
    is proved equal to it. */
module Resolver {
  import opened Text
  import opened PyJson
  import opened Paths
  import opened Patterns
  import opened Credentials

  /** Process-wide configuration that the resolvers read. */
  datatype Config = Config(
    baseUrl: string,                              // LABEL_STUDIO_URL
    apiKey: string,                               // LABEL_STUDIO_API_KEY
    mediaRoot: string,                            // ~/.local/share/label-studio/media, expanded
    glob: (set<string>, string) -> seq<string>,   // glob.glob(pattern) over the existing paths
    unquote: string -> string)                    // urllib.parse.unquote

  /** What the outside world answers during one download: the refresh
      exchange (see `Credentials.AccessToken`), the name `tempfile` picks, and
      whether the GET succeeds and its body is written. */
  datatype Network = Network(refreshed: Option<Json>, tempPath: string, fetchOk: bool)

  /** The outcome of `download_audio`: a path that was found locally, a
      freshly downloaded temporary file (with the request that fetched it), or
      the HTTP error status it raises (with the request, if one was sent). */
  datatype Resolution =
    | Local(path: string)
    | Downloaded(path: string, request: Request)
    | Failed(status: int, attempted: Option<Request>)

  /** The shared mount both backends probe. */
  const LabelStudioRoot: string := "/mnt/mata/labelStudio"

  /** Every path `glob` returns exists. */
  ghost predicate GlobSound(cfg: Config) {
    forall files: set<string>, pattern: string, k: nat ::
      k < |cfg.glob(files, pattern)| ==> cfg.glob(files, pattern)[k] in files
  }

  /** `s.split('/')[-1]`: the text after the last '/'. */
  function LastComponent(s: string): (r: string)
    ensures |r| <= |s| && r == s[|s| - |r|..]
    ensures forall k :: 0 <= k < |r| ==> r[k] != '/'
    ensures |r| < |s| ==> s[|s| - |r| - 1] == '/'
  {
    if s == [] || s[|s| - 1] == '/' then [] else LastComponent(s[..|s| - 1]) + [s[|s| - 1]]
  }

  // -----------------------------------------------------------------------
  // Probes of the enhanced resolver, in the order it tries them. Each looks
  // at the reference with its scheme and host already stripped.
  // -----------------------------------------------------------------------

  function UploadDir(cfg: Config): string {
    Join(cfg.mediaRoot, "upload")
  }

  /** An absolute path that exists is used as it is. */
  function AbsoluteProbe(files: set<string>, u: string): Option<string> {
    if StartsWith(u, "/") then Probe(u, files) else None
  }

  /** The exact media path for `/data/upload/{id}/{name}`. */
  function UploadCandidate(cfg: Config, projectId: string, raw: string): string {
    Join(Join(UploadDir(cfg), projectId), cfg.unquote(raw))
  }

  /** The glob pattern tried when the exact media path is missing. */
  function UploadPattern(cfg: Config, projectId: string, raw: string): string {
    Join(Join(UploadDir(cfg), projectId), "*" + LastComponent(cfg.unquote(raw)) + "*")
  }

  /** `/data/upload/{id}/{name}`: the exact media path, else the first file
      of the project directory whose name contains the base name. */
  function UploadProbe(cfg: Config, files: set<string>, u: string): Option<string> {
    match UploadMatch(u)
    case None => None
    case Some((projectId, raw)) =>
      var candidate := UploadCandidate(cfg, projectId, raw);
      if candidate in files then Some(candidate)
      else
        var matches := cfg.glob(files, UploadPattern(cfg, projectId, raw));
        if matches != [] then Some(matches[0]) else None
  }

  /** `/data/local-files/?d={path}`: the decoded path, if it exists. */
  function LocalFilesProbe(cfg: Config, files: set<string>, u: string): Option<string> {
    match LocalFilesMatch(u)
    case None => None
    case Some(raw) => Probe(cfg.unquote(raw), files)
  }

  /** The name search over the project directories, in glob order: in each,
      the first file whose name contains `name`, else the exact name. */
  function SearchDirs(cfg: Config, files: set<string>, dirs: seq<string>, name: string): Option<string> {
    if dirs == [] then None
    else
      var matches := cfg.glob(files, Join(dirs[0], "*" + name + "*"));
      if matches != [] then Some(matches[0])
      else if Join(dirs[0], name) in files then Some(Join(dirs[0], name))
      else SearchDirs(cfg, files, dirs[1..], name)
  }

  function ProjectDirs(cfg: Config, files: set<string>): seq<string> {
    cfg.glob(files, Join(UploadDir(cfg), "*"))
  }

  /** A reference naming an audio file (mp3, wav, ogg, flac, m4a). */
  function NameSearchProbe(cfg: Config, files: set<string>, u: string): Option<string> {
    match AudioNameMatch(u)
    case None => None
    case Some(raw) => SearchDirs(cfg, files, ProjectDirs(cfg, files), cfg.unquote(raw))
  }

  predicate IsBareName(u: string) {
    !StartsWith(u, "http://") && !StartsWith(u, "https://") && !StartsWith(u, "file://") && !StartsWith(u, "/")
  }

  /** A bare name is looked up under the shared mount. */
  function BareNameProbe(files: set<string>, u: string): Option<string> {
    if IsBareName(u) then Probe(LabelStudioRoot + "/" + u, files) else None
  }

  /** The three places a rooted reference may live, in the order tried. */
  function EnhancedRootedCandidates(u: string): seq<string> {
    [u, LabelStudioRoot + u, LabelStudioRoot + "/" + LStrip(u, '/')]
  }

  function EnhancedRootedProbe(files: set<string>, u: string): Option<string> {
    if StartsWith(u, "/") then FirstExisting(EnhancedRootedCandidates(u), files) else None
  }

  /** `file://` followed by a path (section 2 of RFC 8089): the first seven
      characters are dropped. */
  function FileUriProbe(files: set<string>, u: string): Option<string> {
    if StartsWith(u, "file://") then Probe(u[7..], files) else None
  }

  /** The probes of the host's media store, first hit wins. */
  function MediaStoreLocal(cfg: Config, files: set<string>, u: string): Option<string> {
    OrElse(AbsoluteProbe(files, u),
    OrElse(UploadProbe(cfg, files, u),
    OrElse(LocalFilesProbe(cfg, files, u),
           NameSearchProbe(cfg, files, u))))
  }

  /** The probes of the shared mount and of `file://`, first hit wins. */
  function MountLocal(files: set<string>, u: string): Option<string> {
    OrElse(BareNameProbe(files, u),
    OrElse(EnhancedRootedProbe(files, u),
           FileUriProbe(files, u)))
  }

  /** All local probes of the enhanced resolver, in order, first hit wins. */
  function EnhancedLocal(cfg: Config, files: set<string>, u: string): Option<string> {
    OrElse(MediaStoreLocal(cfg, files, u), MountLocal(files, u))
  }

  /** The download into the temporary file: the header is built from the
      token, which raises (500, nothing sent) for a token that is not a
      string; then the GET either succeeds or fails with 500. */
  function Fetch(cfg: Config, net: Network, u: string): (r: Resolution)
    ensures r.Downloaded? ==> r.path == net.tempPath && net.fetchOk
    ensures r.Failed? ==> r.status == 500
    ensures r.Failed? && r.attempted.None? <==> TokenNotString(cfg.apiKey, net.refreshed)
    ensures !r.Local?
  {
    match DownloadRequest(cfg.baseUrl, cfg.apiKey, net.refreshed, u)
    case None => Failed(500, None)
    case Some(q) => if net.fetchOk then Downloaded(net.tempPath, q) else Failed(500, Some(q))
  }

  /** The enhanced `download_audio`: the outcome and the files afterwards.
      A `blob:` reference is refused with 400 before anything else; after
      the host is stripped, local probes run in order; otherwise a temporary
      file is created and the GET is sent; a failed GET unlinks the temporary
      file and is reported as 500. */
  function ResolveEnhanced(cfg: Config, net: Network, files: set<string>, url: string): (Resolution, set<string>) {
    if StartsWith(url, "blob:") then (Failed(400, None), files)
    else
      var u := StripHost(url);
      match EnhancedLocal(cfg, files, u)
      case Some(p) => (Local(p), files)
      case None =>
        var r := Fetch(cfg, net, u);
        if r.Failed? && r.attempted.Some? then (r, files + {net.tempPath} - {net.tempPath})
        else (r, files + {net.tempPath})
  }

  /** The project-directory loop of the name search. */
  method SearchProjectDirs(cfg: Config, files: set<string>, dirs: seq<string>, filename: string)
    returns (found: Option<string>)
    ensures found == SearchDirs(cfg, files, dirs, filename)
  {
    for i := 0 to |dirs|
      invariant SearchDirs(cfg, files, dirs, filename) == SearchDirs(cfg, files, dirs[i..], filename)
    {
      assert dirs[i..][1..] == dirs[i + 1..];
      var matches := cfg.glob(files, Join(dirs[i], "*" + filename + "*"));
      if |matches| > 0 {
        return Some(matches[0]);
      }
      var exactPath := Join(dirs[i], filename);
      if exactPath in files {
        return Some(exactPath);
      }
    }
    return None;
  }

  /** The media-store probes of the enhanced `download_audio`, step by step
      with early returns as the source runs them, on the stripped reference. */
  method ProbeMediaStore(cfg: Config, files: set<string>, url: string) returns (found: Option<string>)
    ensures found == MediaStoreLocal(cfg, files, url)
  {
    if StartsWith(url, "/") && url in files {
      return Some(url);
    }
    assert AbsoluteProbe(files, url).None?;
    var upload := UploadMatch(url);
    if upload.Some? {
      var (projectId, raw) := upload.value;
      var localPath := UploadCandidate(cfg, projectId, raw);
      if localPath in files {
        return Some(localPath);
      }
      var matches := cfg.glob(files, UploadPattern(cfg, projectId, raw));
      if |matches| > 0 {
        return Some(matches[0]);
      }
    }
    assert UploadProbe(cfg, files, url).None?;
    var localFiles := LocalFilesMatch(url);
    if localFiles.Some? {
      var filePath := cfg.unquote(localFiles.value);
      if filePath in files {
        return Some(filePath);
      }
    }
    assert LocalFilesProbe(cfg, files, url).None?;
    var audioName := AudioNameMatch(url);
    if audioName.Some? {
      var filename := cfg.unquote(audioName.value);
      var hit := SearchProjectDirs(cfg, files, ProjectDirs(cfg, files), filename);
      if hit.Some? {
        return hit;
      }
    }
    return None;
  }

  /** The shared-mount and `file://` probes of the enhanced `download_audio`. */
  method ProbeMounts(files: set<string>, url: string) returns (found: Option<string>)
    ensures found == MountLocal(files, url)
  {
    if IsBareName(url) {
      var localPath := LabelStudioRoot + "/" + url;
      if localPath in files {
        return Some(localPath);
      }
    }
    assert BareNameProbe(files, url).None?;
    if StartsWith(url, "/") {
      var pathsToTry := EnhancedRootedCandidates(url);
      for i := 0 to |pathsToTry|
        invariant FirstExisting(pathsToTry, files) == FirstExisting(pathsToTry[i..], files)
      {
        assert pathsToTry[i..][1..] == pathsToTry[i + 1..];
        if pathsToTry[i] in files {
          return Some(pathsToTry[i]);
        }
      }
    }
    assert EnhancedRootedProbe(files, url).None?;
    if StartsWith(url, "file://") {
      var localPath := url[7..];
      if localPath in files {
        return Some(localPath);
      }
    }
    return None;
  }

  /** The enhanced `download_audio`: the blob check, the host strip, the
      local probes, then the download into a temporary file. */
  method DownloadAudioEnhanced(fs: FileSystem, cfg: Config, net: Network, url0: string) returns (r: Resolution)
    modifies fs
    ensures (r, fs.files) == ResolveEnhanced(cfg, net, old(fs.files), url0)
  {
    if StartsWith(url0, "blob:") {
      return Failed(400, None);
    }
    var url := StripHost(url0);
    var found := ProbeMediaStore(cfg, fs.files, url);
    if found.Some? {
      return Local(found.value);
    }
    found := ProbeMounts(fs.files, url);
    if found.Some? {
      return Local(found.value);
    }
    fs.CreateTemp(net.tempPath);
    var request := DownloadRequest(cfg.baseUrl, cfg.apiKey, net.refreshed, url);
    if request.None? {
      return Failed(500, None);
    }
    if net.fetchOk {
      return Downloaded(net.tempPath, request.value);
    }
    fs.Unlink(net.tempPath);
    return Failed(500, request);
  }

  // -----------------------------------------------------------------------
  // The simple resolver: two probes, then an unconditional download.
  // -----------------------------------------------------------------------

  /** The two places a rooted reference may live, in the order tried. */
  function SimpleRootedCandidates(url: string): seq<string> {
    [LabelStudioRoot + url, LabelStudioRoot + "/" + LStrip(url, '/')]
  }

  function SimpleLocal(files: set<string>, url: string): Option<string> {
    OrElse(if StartsWith(url, "/") then FirstExisting(SimpleRootedCandidates(url), files) else None,
           FileUriProbe(files, url))
  }

  /** The simple `download_audio`. No `blob:` check and no host stripping;
      a failed download is reported as 500 and its temporary file stays. */
  function ResolveSimple(cfg: Config, net: Network, files: set<string>, url: string): (Resolution, set<string>) {
    match SimpleLocal(files, url)
    case Some(p) => (Local(p), files)
    case None =>
      (Fetch(cfg, net, url), files + {net.tempPath})
  }

  /** The simple `download_audio`, step by step as the source runs it. */
  method DownloadAudioSimple(fs: FileSystem, cfg: Config, net: Network, url: string) returns (r: Resolution)
    modifies fs
    ensures (r, fs.files) == ResolveSimple(cfg, net, old(fs.files), url)
  {
    if StartsWith(url, "/") {
      var candidates := SimpleRootedCandidates(url);
      if candidates[0] in fs.files {
        return Local(candidates[0]);
      }
      assert candidates[1..] == [candidates[1]];
      assert candidates[1..][1..] == [];
      if candidates[1] in fs.files {
        return Local(candidates[1]);
      }
    }
    if StartsWith(url, "file://") {
      PrefixesExclusive(url, "/", "file://");
      var localPath := url[7..];
      if localPath in fs.files {
        return Local(localPath);
      }
    }
    fs.CreateTemp(net.tempPath);
    var request := DownloadRequest(cfg.baseUrl, cfg.apiKey, net.refreshed, url);
    if request.None? {
      return Failed(500, None);
    }
    if net.fetchOk {
      return Downloaded(net.tempPath, request.value);
    }
    return Failed(500, request);
  }

  // -----------------------------------------------------------------------
  // Properties of the two resolvers.
  // -----------------------------------------------------------------------

  /** The name search only returns paths that exist. */
  lemma {:induction false} SearchDirsExists(cfg: Config, files: set<string>, dirs: seq<string>, name: string)
    requires GlobSound(cfg)
    ensures SearchDirs(cfg, files, dirs, name).Some? ==> SearchDirs(cfg, files, dirs, name).value in files
  {
    if dirs != [] {
      var matches := cfg.glob(files, Join(dirs[0], "*" + name + "*"));
      if matches != [] {
        assert matches[0] in files;
      } else {
        SearchDirsExists(cfg, files, dirs[1..], name);
      }
    }
  }

  /** The first path `glob` returns exists. */
  lemma GlobFirstExists(cfg: Config, files: set<string>, pattern: string)
    requires GlobSound(cfg)
    ensures cfg.glob(files, pattern) != [] ==> cfg.glob(files, pattern)[0] in files
  {
    if cfg.glob(files, pattern) != [] {
      var k: nat := 0;
      assert k < |cfg.glob(files, pattern)|;
    }
  }

  /** The upload probe only returns paths that exist. */
  lemma UploadProbeExists(cfg: Config, files: set<string>, u: string)
    requires GlobSound(cfg)
    ensures UploadProbe(cfg, files, u).Some? ==> UploadProbe(cfg, files, u).value in files
  {
    var m := UploadMatch(u);
    if m.Some? {
      GlobFirstExists(cfg, files, UploadPattern(cfg, m.value.0, m.value.1));
    }
  }

  /** Every local probe of the enhanced resolver answers with an existing path. */
  lemma EnhancedLocalExists(cfg: Config, files: set<string>, u: string)
    requires GlobSound(cfg)
    ensures EnhancedLocal(cfg, files, u).Some? ==> EnhancedLocal(cfg, files, u).value in files
  {
    UploadProbeExists(cfg, files, u);
    match AudioNameMatch(u)
    case None =>
    case Some(raw) => SearchDirsExists(cfg, files, ProjectDirs(cfg, files), cfg.unquote(raw));
  }

  /** Ownership of files in the enhanced resolver: a local hit changes nothing
      and names an existing file; a download leaves exactly its fresh
      temporary file behind; every failure leaves the file system as it was,
      except a token that is not a string, which raises between the creation
      of the temporary file and the `try` that unlinks it. */
  lemma EnhancedOwnership(cfg: Config, net: Network, files: set<string>, url: string)
    requires GlobSound(cfg) && net.tempPath !in files
    ensures var (r, after) := ResolveEnhanced(cfg, net, files, url);
      && (r.Local? ==> r.path in files && after == files)
      && (r.Downloaded? ==> r.path == net.tempPath && after == files + {net.tempPath})
      && (r.Failed? && !TokenNotString(cfg.apiKey, net.refreshed) ==> after == files)
      && (r.Failed? && TokenNotString(cfg.apiKey, net.refreshed) ==>
            after == files || (r == Failed(500, None) && after == files + {net.tempPath}))
  {
    if !StartsWith(url, "blob:") {
      EnhancedLocalExists(cfg, files, StripHost(url));
    }
  }

  /** A refreshed token that is not a string leaks the temporary file: the
      `AttributeError` from `token.startswith` escapes to the outer handler,
      which answers 500 without unlinking it. */
  lemma EnhancedTokenLeak(cfg: Config, net: Network, files: set<string>, url: string)
    requires !StartsWith(url, "blob:") && EnhancedLocal(cfg, files, StripHost(url)).None?
    requires TokenNotString(cfg.apiKey, net.refreshed) && net.tempPath !in files
    ensures ResolveEnhanced(cfg, net, files, url) == (Failed(500, None), files + {net.tempPath})
    ensures ResolveEnhanced(cfg, net, files, url).1 != files
  {
  }

  /** `blob:` references, which only exist inside a browser, are refused
      with 400 and nothing else; no other reference is refused with 400. */
  lemma BlobRejected(cfg: Config, net: Network, files: set<string>, url: string)
    ensures ResolveEnhanced(cfg, net, files, url).0 == Failed(400, None) <==> StartsWith(url, "blob:")
  {
  }

  /** An existing absolute path is returned as it is, before any other probe. */
  lemma AbsolutePathWins(cfg: Config, net: Network, files: set<string>, url: string)
    requires StartsWith(url, "/") && url in files
    ensures ResolveEnhanced(cfg, net, files, url) == (Local(url), files)
  {
    StripHostKeepsRooted(url);
    PrefixesExclusive(url, "/", "blob:");
  }

  /** The same holds after the host is stripped: for a reference such as
      `http://host/abs/path`, an existing `/abs/path` is returned as it is,
      ahead of every other probe. */
  lemma AbsolutePathAfterHostStrip(cfg: Config, net: Network, files: set<string>, url: string)
    requires !StartsWith(url, "blob:") && StartsWith(StripHost(url), "/") && StripHost(url) in files
    ensures ResolveEnhanced(cfg, net, files, url) == (Local(StripHost(url)), files)
  {
    AbsolutePathWins(cfg, net, files, StripHost(url));
  }

  /** A reference carrying a host is fetched from the configured host: the
      request goes to the base URL followed by the reference's path. */
  lemma EnhancedRetargetsHost(cfg: Config, net: Network, files: set<string>, url: string)
    requires !StartsWith(url, "blob:") && HasHost(url) && StripHost(url) != []
    requires EnhancedLocal(cfg, files, StripHost(url)).None?
    ensures var (r, _) := ResolveEnhanced(cfg, net, files, url);
      (r.Downloaded? && r.request.url == cfg.baseUrl + StripHost(url))
      || (r.Failed? && r.attempted.Some? && r.attempted.value.url == cfg.baseUrl + StripHost(url))
      || (r == Failed(500, None) && TokenNotString(cfg.apiKey, net.refreshed))
  {
    var u := StripHost(url);
    assert u[..1] == "/";
  }

  /** The upload probe tries the exact media path before the glob fallback. */
  lemma UploadExactBeforeGlob(cfg: Config, files: set<string>, u: string, projectId: string, raw: string)
    requires UploadMatch(u) == Some((projectId, raw))
    requires AbsoluteProbe(files, u).None?
    ensures UploadCandidate(cfg, projectId, raw) in files ==>
              EnhancedLocal(cfg, files, u) == Some(UploadCandidate(cfg, projectId, raw))
    ensures UploadCandidate(cfg, projectId, raw) !in files && cfg.glob(files, UploadPattern(cfg, projectId, raw)) != [] ==>
              EnhancedLocal(cfg, files, u) == Some(cfg.glob(files, UploadPattern(cfg, projectId, raw))[0])
  {
  }

  /** An upload reference (the URL the host gives an uploaded file) is
      served from the host's media store when its file is there. */
  lemma UploadReferenceServedLocally(cfg: Config, net: Network, files: set<string>, id: string, name: string)
    requires id != [] && forall k :: 0 <= k < |id| ==> IsDigit(id[k])
    requires name != [] && forall k :: 0 <= k < |name| ==> name[k] != '?' && name[k] != '\n'
    requires UploadPrefix + id + "/" + name !in files
    requires UploadCandidate(cfg, id, name) in files
    ensures ResolveEnhanced(cfg, net, files, UploadPrefix + id + "/" + name) == (Local(UploadCandidate(cfg, id, name)), files)
  {
    var url := UploadPrefix + id + "/" + name;
    assert url[..1] == "/";
    StripHostKeepsRooted(url);
    PrefixesExclusive(url, "/", "blob:");
    UploadRoundTrip(id, name);
  }

  /** Ownership of files in the simple resolver: a local hit names an
      existing file and changes nothing; a download adds exactly its
      temporary file, and so does every failure, since nothing unlinks it. */
  lemma SimpleOwnership(cfg: Config, net: Network, files: set<string>, url: string)
    ensures var (r, after) := ResolveSimple(cfg, net, files, url);
      && (r.Local? ==> r.path in files && after == files)
      && (r.Downloaded? ==> r.path == net.tempPath && after == files + {net.tempPath})
      && (r.Failed? ==> after == files + {net.tempPath})
  {
    SimpleLocalExists(files, url);
    var local := SimpleLocal(files, url);
    if local.None? {
      var q := DownloadRequest(cfg.baseUrl, cfg.apiKey, net.refreshed, url);
      if q.None? {
        assert ResolveSimple(cfg, net, files, url) == (Failed(500, None), files + {net.tempPath});
      } else if net.fetchOk {
        assert ResolveSimple(cfg, net, files, url) == (Downloaded(net.tempPath, q.value), files + {net.tempPath});
      } else {
        assert ResolveSimple(cfg, net, files, url) == (Failed(500, q), files + {net.tempPath});
      }
    }
  }

  /** Every local hit of the simple resolver exists. */
  lemma SimpleLocalExists(files: set<string>, url: string)
    ensures SimpleLocal(files, url).Some? ==> SimpleLocal(files, url).value in files
  {
    if StartsWith(url, "/") {
      var first := FirstExisting(SimpleRootedCandidates(url), files);
      assert first.Some? ==> first.value in files;
    }
  }

  /** Ownership of files in the simple resolver: a failed download leaves its
      temporary file behind. */
  lemma SimpleLeaksTempFile(cfg: Config, net: Network, files: set<string>, url: string)
    requires SimpleLocal(files, url).None? && !net.fetchOk && net.tempPath !in files
    ensures ResolveSimple(cfg, net, files, url).1 == files + {net.tempPath} != files
  {
  }

  /** The simple resolver tries the mount joined to the reference first, then
      the mount joined to the reference without its leading slashes. */
  lemma SimpleRootedOrder(cfg: Config, net: Network, files: set<string>, url: string)
    requires StartsWith(url, "/")
    ensures LabelStudioRoot + url in files ==> ResolveSimple(cfg, net, files, url) == (Local(LabelStudioRoot + url), files)
    ensures LabelStudioRoot + url !in files && LabelStudioRoot + "/" + LStrip(url, '/') in files ==>
              ResolveSimple(cfg, net, files, url) == (Local(LabelStudioRoot + "/" + LStrip(url, '/')), files)
  {
    var candidates := SimpleRootedCandidates(url);
    assert candidates[1..] == [candidates[1]];
  }

  /** A `file://` reference whose path exists is used locally. */
  lemma SimpleFileUri(cfg: Config, net: Network, files: set<string>, url: string)
    requires StartsWith(url, "file://") && url[7..] in files
    ensures ResolveSimple(cfg, net, files, url) == (Local(url[7..]), files)
  {
    PrefixesExclusive(url, "/", "file://");
  }

  /** The simple resolver never looks locally for an http(s) reference: it
      downloads it from exactly that URL. */
  lemma SimpleHttpDownloads(cfg: Config, net: Network, files: set<string>, url: string)
    requires StartsWith(url, "http://") || StartsWith(url, "https://")
    ensures var (r, _) := ResolveSimple(cfg, net, files, url);
      || (r.Downloaded? && r.request.url == url)
      || (r.Failed? && r.attempted.Some? && r.attempted.value.url == url)
      || (r == Failed(500, None) && TokenNotString(cfg.apiKey, net.refreshed))
  {
    PrefixesExclusive(url, "/", "http://");
    PrefixesExclusive(url, "/", "https://");
    PrefixesExclusive(url, "file://", "http://");
    PrefixesExclusive(url, "file://", "https://");
  }

  /** The enhanced resolver finds everything the simple one finds on the
      shared mount, unless a media-store probe answers first. */
  lemma EnhancedCoversSimpleMount(cfg: Config, files: set<string>, url: string)
    requires StartsWith(url, "/") && MediaStoreLocal(cfg, files, url).None?
    requires FirstExisting(SimpleRootedCandidates(url), files).Some?
    ensures EnhancedLocal(cfg, files, url) == FirstExisting(SimpleRootedCandidates(url), files)
  {
    PrefixesExclusive(url, "/", "file://");
    PrefixesExclusive(url, "/", "http://");
    PrefixesExclusive(url, "/", "https://");
    assert url !in files;
    assert EnhancedRootedCandidates(url)[1..] == SimpleRootedCandidates(url);
  }
}
