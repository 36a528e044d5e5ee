/** The file system as the backends see it: a set of existing paths (what
    `os.path.exists` answers), `os.path.join`, and the probe "first existing
    path of a list" that both resolvers use. */
module Paths {
  import opened Text
  import opened PyJson

  /** The host file system, reduced to the set of paths that exist. Creating
      a temporary file adds its path, `os.unlink` removes it. */
  class FileSystem {
    var files: set<string>

    constructor (initial: set<string>)
      ensures files == initial
    {
      files := initial;
    }

    /** `os.unlink(path)` on a path known to exist. */
    method Unlink(path: string)
      requires path in files
      modifies this
      ensures files == old(files) - {path}
    {
      files := files - {path};
    }

    /** A fresh temporary file (`tempfile.NamedTemporaryFile(delete=False)`). */
    method CreateTemp(path: string)
      modifies this
      ensures files == old(files) + {path}
    {
      files := files + {path};
    }
  }

  /** `os.path.join(a, b)` on POSIX: an absolute `b` discards `a`; otherwise a
      separator is inserted unless `a` is empty or already ends with one. */
  function Join(a: string, b: string): (r: string)
    ensures StartsWith(b, "/") ==> r == b
    ensures !StartsWith(b, "/") ==> EndsWith(r, b) && StartsWith(r, a)
  {
    if StartsWith(b, "/") then b
    else if a == "" || EndsWith(a, "/") then a + b
    else a + "/" + b
  }

  /** The first path of `candidates` that exists, tried in order. */
  function FirstExisting(candidates: seq<string>, files: set<string>): (r: Option<string>)
    ensures r.Some? <==> exists k :: 0 <= k < |candidates| && candidates[k] in files
    ensures r.Some? ==> r.value in candidates && r.value in files
    ensures r.Some? ==> exists k :: 0 <= k < |candidates| && candidates[k] == r.value &&
                          forall j :: 0 <= j < k ==> candidates[j] !in files
  {
    if candidates == [] then None
    else if candidates[0] in files then Some(candidates[0])
    else FirstExisting(candidates[1..], files)
  }

  /** `if os.path.exists(p): return p`. */
  function Probe(p: string, files: set<string>): (r: Option<string>)
    ensures r.Some? <==> p in files
    ensures r.Some? ==> r.value == p
  {
    if p in files then Some(p) else None
  }

  /** Short-circuiting composition of two probes: the first hit wins. */
  function OrElse(first: Option<string>, second: Option<string>): (r: Option<string>)
    ensures first.Some? ==> r == first
    ensures first.None? ==> r == second
  {
    if first.Some? then first else second
  }

  /** Unlink `path` if it exists and starts with "/tmp". */
  function DropTmp(path: string, files: set<string>): (after: set<string>)
    ensures after <= files && files - after <= {path}
    ensures path !in after <==> path !in files || StartsWith(path, "/tmp")
  {
    if path in files && StartsWith(path, "/tmp") then files - {path} else files
  }
}
