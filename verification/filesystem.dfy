/** A flat model of the local filesystem: regular files keyed by their full
    path (contents as text), plus the set of directory paths. Paths are not
    normalised and parent directories are not tracked. */
module FileSystem {
  import opened Base
  import opened Text

  datatype Fs = Fs(files: map<string, string>, dirs: set<string>)

  /** The effect of a filesystem step that may fail after changing things. */
  datatype FsStep = FsStep(fs: Fs, error: Option<string>)

  /** `os.path.join(dir, name)` on POSIX. */
  function Join(dir: string, name: string): (r: string)
    ensures EndsWith(r, name)
    ensures !StartsWith(name, "/") && dir != "" ==> StartsWith(r, dir) && |r| > |name|
  {
    if StartsWith(name, "/") then name
    else if dir == "" || EndsWith(dir, "/") then dir + name
    else dir + "/" + name
  }

  /** Joining a relative name onto a directory is injective in the name. */
  lemma JoinInjective(dir: string, a: string, b: string)
    requires !StartsWith(a, "/") && !StartsWith(b, "/")
    requires Join(dir, a) == Join(dir, b)
    ensures a == b
  {
    var ja, jb := Join(dir, a), Join(dir, b);
    var n := if dir == "" || EndsWith(dir, "/") then |dir| else |dir| + 1;
    assert ja[n..] == a;
    assert jb[n..] == b;
  }

  predicate Exists(fs: Fs, path: string) {
    path in fs.files || path in fs.dirs
  }

  /** `os.makedirs(path, exist_ok=True)`: fails on "" and on an existing
      regular file. */
  function MakeDirs(fs: Fs, path: string): (r: Result<Fs>)
    ensures r.Err? <==> path == "" || path in fs.files
    ensures r.Ok? ==> r.value.files == fs.files && r.value.dirs == fs.dirs + {path}
  {
    if path == "" then Err("[Errno 2] No such file or directory: ''")
    else if path in fs.files then Err("[Errno 17] File exists: '" + path + "'")
    else Ok(fs.(dirs := fs.dirs + {path}))
  }

  /** Writing a whole file (`open(path, "w")` or a streamed download): fails
      only when the path is a directory. */
  function WriteFile(fs: Fs, path: string, content: string): (r: Result<Fs>)
    ensures r.Ok? <==> path !in fs.dirs
    ensures r.Ok? ==> r.value.files == fs.files[path := content] && r.value.dirs == fs.dirs
  {
    if path in fs.dirs then Err("[Errno 21] Is a directory: '" + path + "'")
    else Ok(fs.(files := fs.files[path := content]))
  }

  /** `os.remove(path)`: only regular files can be removed. */
  function Remove(fs: Fs, path: string): (r: Result<Fs>)
    ensures r.Ok? <==> path in fs.files
    ensures r.Ok? ==> r.value.files == fs.files - {path} && r.value.dirs == fs.dirs
  {
    if path in fs.files then Ok(fs.(files := fs.files - {path}))
    else if path in fs.dirs then Err("[Errno 21] Is a directory: '" + path + "'")
    else Err("[Errno 2] No such file or directory: '" + path + "'")
  }

  /** `shutil.move(src, dst)` for a regular file onto a path that is not a
      directory. */
  function Move(fs: Fs, src: string, dst: string): (r: Result<Fs>)
    ensures r.Ok? <==> src in fs.files && dst !in fs.dirs
    ensures r.Ok? ==> dst in r.value.files && r.value.files[dst] == fs.files[src]
    ensures r.Ok? && src != dst ==> src !in r.value.files
    ensures r.Ok? ==> forall p :: p != src && p != dst ==>
      (p in r.value.files <==> p in fs.files) && (p in fs.files ==> r.value.files[p] == fs.files[p])
    ensures r.Ok? ==> r.value.dirs == fs.dirs
  {
    if src !in fs.files then Err("[Errno 2] No such file or directory: '" + src + "'")
    else if dst in fs.dirs then Err("[Errno 21] Is a directory: '" + dst + "'")
    else Ok(fs.(files := (fs.files - {src})[dst := fs.files[src]]))
  }

  /** The last path component, as `os.path.basename`. */
  function BaseName(p: string): string
    decreases |p|
  {
    if p == [] then []
    else if p[|p| - 1] == '/' then []
    else BaseName(p[..|p| - 1]) + [p[|p| - 1]]
  }

  /** `shutil.copy2(src, dst)`: a directory destination receives the file
      under its base name; copying a file onto itself fails. */
  function Copy(fs: Fs, src: string, dst: string): (r: Result<Fs>)
    ensures r.Ok? ==> src in fs.files
    ensures dst !in fs.dirs && r.Ok? ==> r.value.files == fs.files[dst := fs.files[src]]
    ensures r.Ok? ==> src in r.value.files && r.value.files[src] == fs.files[src]
    ensures r.Ok? ==> r.value.dirs == fs.dirs
    ensures dst !in fs.dirs ==> (r.Ok? <==> src in fs.files && src != dst)
  {
    var target := if dst in fs.dirs then Join(dst, BaseName(src)) else dst;
    if src !in fs.files then Err("[Errno 2] No such file or directory: '" + src + "'")
    else if target == src then Err("'" + src + "' and '" + target + "' are the same file")
    else if target in fs.dirs then Err("[Errno 21] Is a directory: '" + target + "'")
    else Ok(fs.(files := fs.files[target := fs.files[src]]))
  }
}
