/** The local file system as the downloader sees it: a set of directories and a map from
    file paths to contents. Paths are compared as strings, without normalisation. */
module LocalFs {
  import opened Values

  /** The directories `os.makedirs(p)` creates: every prefix of `p` that ends just before
      a '/', and `p` itself. */
  function DirsOnPath(p: string): (d: set<string>)
    ensures p in d
  {
    (set i | 0 < i < |p| && p[i] == '/' :: p[..i]) + {p}
  }

  /** `os.makedirs(p)` fails when one of those directories is taken by a file; it then
      creates nothing. */
  predicate MakeDirsFails(files: map<string, Bytes>, p: string) {
    DirsOnPath(p) * files.Keys != {}
  }

  /** `os.makedirs` fails on a path that is a file. */
  lemma FileBlocksMakeDirs(files: map<string, Bytes>, p: string)
    ensures p in files ==> MakeDirsFails(files, p)
  {
    if p in files {
      assert p in DirsOnPath(p) * files.Keys;
    }
  }

  /** The directories after `os.makedirs(p)`. */
  function AfterMakeDirs(dirs: set<string>, files: map<string, Bytes>, p: string): (d: set<string>)
    ensures dirs <= d
    ensures MakeDirsFails(files, p) ==> d == dirs
    ensures !MakeDirsFails(files, p) ==> DirsOnPath(p) <= d && d - dirs <= DirsOnPath(p)
  {
    if MakeDirsFails(files, p) then dirs else dirs + DirsOnPath(p)
  }

  class FileSystem {
    var dirs: set<string>
    var files: map<string, Bytes>

    constructor (dirs: set<string>, files: map<string, Bytes>)
      ensures this.dirs == dirs && this.files == files
    {
      this.dirs := dirs;
      this.files := files;
    }

    /** `os.path.exists(p)` */
    predicate Exists(p: string)
      reads this
    {
      p in dirs || p in files
    }

    /** `os.makedirs(p)`; `ok` is false where it raised. */
    method MakeDirs(p: string) returns (ok: bool)
      modifies this
      ensures ok == !MakeDirsFails(old(files), p)
      ensures dirs == AfterMakeDirs(old(dirs), old(files), p)
      ensures files == old(files)
    {
      ok := !MakeDirsFails(files, p);
      dirs := AfterMakeDirs(dirs, files, p);
    }

    /** `open(p, "w").write(content)`: the file at `p` holds exactly `content`. */
    method Write(p: string, content: Bytes)
      modifies this
      ensures files == old(files)[p := content]
      ensures dirs == old(dirs)
    {
      files := files[p := content];
    }
  }
}
