/**
 * The driver of stub.py: whether a loaded module is a package, where its stub goes,
 * and what `main` does with the outcome of loading it.
 */
module Driver {
  import opened Wrappers
  import opened Text
  import opened Seqs
  import opened Objects
  import opened Writer
  import opened Stubs

  /** `path.rfind('/')`: the index of the last `/`, or -1 when there is none. */
  function LastSlash(path: string): (r: int)
    ensures -1 <= r < |path|
    ensures r >= 0 ==> path[r] == '/'
    ensures forall j :: r < j < |path| ==> path[j] != '/'
    decreases |path|
  {
    if path == [] then -1
    else if path[|path| - 1] == '/' then |path| - 1
    else LastSlash(path[..|path| - 1])
  }

  /** `os.path.basename(path)`: what follows the last `/`. */
  function BaseName(path: string): (r: string)
    ensures '/' !in r
    ensures EndsWith(path, r)
    ensures |r| < |path| ==> path[|path| - |r| - 1] == '/'
  {
    path[LastSlash(path) + 1..]
  }

  /**
   * `is_probably_package`: the module's source file, when it has one, is named
   * `__init__.py`. `None` stands for a built-in module (`getsourcefile` raises) and for
   * a module without a source file (`getsourcefile` returns `None`).
   */
  predicate IsProbablyPackage(sourceFile: Option<string>) {
    sourceFile.Some? && BaseName(sourceFile.value) == "__init__.py"
  }

  /** A source file is a package's exactly when its last path component is `__init__.py`. */
  lemma PackageSourceFile(dir: string, file: string)
    requires '/' !in file
    ensures IsProbablyPackage(Some(dir + "/" + file)) <==> file == "__init__.py"
    ensures IsProbablyPackage(Some(file)) <==> file == "__init__.py"
  {
    var path := dir + "/" + file;
    assert path[|dir|] == '/';
    assert forall j :: |dir| < j < |path| ==> path[j] == file[j - |dir| - 1];
    assert BaseName(path) == file by {
      assert LastSlash(path) == |dir|;
      assert path[|dir| + 1..] == file;
    }
    assert BaseName(file) == file by {
      assert LastSlash(file) == -1;
    }
  }

  /**
   * The path components of the stub of `moduleName`: its dotted parts, then
   * `__init__.py` for a package, or with `.py` added to the last part otherwise.
   */
  function OutputComponents(moduleName: string, package: bool): (r: seq<string>)
    ensures var parts := SplitOn(moduleName, '.');
      && |r| == |parts| + (if package then 1 else 0)
      && r[..|parts| - 1] == parts[..|parts| - 1]
  {
    var parts := SplitOn(moduleName, '.');
    if package then parts + ["__init__.py"]
    else parts[..|parts| - 1] + [parts[|parts| - 1] + ".py"]
  }

  /** The components joined with `/` are the module name with its dots made slashes, and the suffix. */
  lemma OutputComponentsJoin(moduleName: string, package: bool)
    ensures Join(OutputComponents(moduleName, package), "/")
      == ReplaceChar(moduleName, '.', '/') + (if package then "/__init__.py" else ".py")
  {
    var parts := SplitOn(moduleName, '.');
    JoinSplitOn(moduleName, '.', '/');
    if package {
      JoinAppend(parts, "__init__.py", "/");
    } else {
      JoinExtendLast(parts, ".py", "/");
    }
  }

  /**
   * `posixpath.join(path, *parts)`: a part starting with `/` starts the path afresh;
   * otherwise it is appended, after a `/` unless the path so far is empty or ends in one.
   */
  function PathJoin(path: string, parts: seq<string>): string
    decreases |parts|
  {
    if parts == [] then path
    else
      var prev := PathJoin(path, parts[..|parts| - 1]);
      var part := parts[|parts| - 1];
      if StartsWith(part, "/") then part
      else if prev == "" || EndsWith(prev, "/") then prev + part
      else prev + "/" + part
  }

  /** Joining plain non-empty components onto a directory puts one `/` before each of them. */
  lemma {:induction false} PathJoinPlain(dir: string, parts: seq<string>)
    requires dir != "" && !EndsWith(dir, "/")
    requires parts != []
    requires forall p :: p in parts ==> p != "" && '/' !in p
    ensures PathJoin(dir, parts) == dir + "/" + Join(parts, "/")
    ensures !EndsWith(PathJoin(dir, parts), "/")
    decreases |parts|
  {
    var init, last := parts[..|parts| - 1], parts[|parts| - 1];
    assert last in parts;
    assert !StartsWith(last, "/") by {
      assert last[0] in last;
    }
    var prev := PathJoin(dir, init);
    if init == [] {
      assert prev == dir;
      assert parts == [last];
    } else {
      assert forall p :: p in init ==> p in parts;
      PathJoinPlain(dir, init);
      JoinAppend(init, last, "/");
      assert parts == init + [last];
      AppendAssoc(dir + "/", Join(init, "/"), "/" + last);
      AppendAssoc(Join(init, "/"), "/", last);
      AppendAssoc(dir + "/" + Join(init, "/"), "/", last);
    }
    var r := PathJoin(dir, parts);
    assert r == prev + "/" + last;
    assert r[|r| - 1..] == [last[|last| - 1]];
  }

  /** `os.path.join(out_dir, *components)` for the stub of `moduleName`. */
  function OutputPath(outDir: string, moduleName: string, package: bool): string {
    PathJoin(outDir, OutputComponents(moduleName, package))
  }

  lemma ComponentsPlain(moduleName: string, package: bool)
    requires '/' !in moduleName
    requires forall p :: p in SplitOn(moduleName, '.') ==> p != ""
    ensures forall p :: p in OutputComponents(moduleName, package) ==> p != "" && '/' !in p
  {
    var parts := SplitOn(moduleName, '.');
    var components := OutputComponents(moduleName, package);
    SplitOnParts(moduleName, '.');
    if package {
      assert components == parts + ["__init__.py"];
    } else {
      var init, last := parts[..|parts| - 1], parts[|parts| - 1];
      assert components == init + [last + ".py"];
      assert last in parts;
      assert forall p :: p in init ==> p in parts;
    }
  }

  /**
   * Where the stub goes: below the output directory, the module name with its dots made
   * slashes, then `/__init__.py` for a package or `.py` otherwise. This holds for an
   * output directory that is not empty and does not end in `/`, and a module name without
   * `/` whose dotted parts are not empty.
   */
  lemma OutputPathLayout(outDir: string, moduleName: string, package: bool)
    requires outDir != "" && !EndsWith(outDir, "/")
    requires '/' !in moduleName
    requires forall p :: p in SplitOn(moduleName, '.') ==> p != ""
    ensures OutputPath(outDir, moduleName, package)
      == outDir + "/" + ReplaceChar(moduleName, '.', '/') + (if package then "/__init__.py" else ".py")
  {
    var components := OutputComponents(moduleName, package);
    ComponentsPlain(moduleName, package);
    PathJoinPlain(outDir, components);
    OutputComponentsJoin(moduleName, package);
  }

  /** What importing the module came to: the module and its source file, or the kind of failure. */
  datatype LoadOutcome =
    | Loaded(mod: Module, sourceFile: Option<string>)
    | NotFound     // `ImportError`
    | LoadFailed   // any other exception

  /** What `main` ends with: a message printed, or a stub written to a path. */
  datatype RunOutcome =
    | Reported(message: string)
    | Written(path: string, lines: seq<string>)

  /**
   * `main` after argument parsing: report a module that cannot be imported, compute the
   * output path, refuse to overwrite an existing file unless asked to, and otherwise stub
   * the module into a new file at indent level 0. `existing` is the set of paths that
   * already exist.
   */
  method Run(moduleName: string, outDir: string, options: Options, load: LoadOutcome, existing: set<string>)
    returns (outcome: RunOutcome)
    ensures load.NotFound? ==> outcome == Reported("Module " + moduleName + " does not exist")
    ensures load.LoadFailed? ==> outcome == Reported("Failed to import " + moduleName)
    ensures load.Loaded? ==>
      var path := OutputPath(outDir, moduleName, IsProbablyPackage(load.sourceFile) || options.forcePackage);
      if path in existing && !options.overwrite then outcome == Reported("Refusing to overwrite " + path)
      else outcome == Written(path, ModuleText(options, 0, options.hiding, SelectMembers(load.mod, options)))
  {
    match load
    case NotFound =>
      return Reported("Module " + moduleName + " does not exist");
    case LoadFailed =>
      return Reported("Failed to import " + moduleName);
    case Loaded(mod, sourceFile) =>
      var components := OutputComponents(moduleName, IsProbablyPackage(sourceFile) || options.forcePackage);
      var outPath := PathJoin(outDir, components);
      if outPath in existing && !options.overwrite {
        return Reported("Refusing to overwrite " + outPath);
      }
      var file := new Sink();
      var out := new Outputter(file, options, 0);
      Stub(mod, out, options);
      assert [] + ModuleText(options, 0, options.hiding, SelectMembers(mod, options))
        == ModuleText(options, 0, options.hiding, SelectMembers(mod, options));
      return Written(outPath, file.written);
  }
}
