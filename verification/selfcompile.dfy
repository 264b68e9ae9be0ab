/**
  The self-recompile orchestrator of selfcompile.go. A `SelfCompile` object
  collects plugin import paths, then `Compile` builds a fresh sandbox
  (`setup`), fetches and builds the `Install` target with the embedded
  toolchain, and copies the new binary over the running one, with an
  optional deferred `Cleanup` whose error is merged with the main one.

  The file system and subprocesses are not modelled. Every external step is
  an `Action`; a `World` decides what each action returns, and a ghost trace
  on the object records the actions in the order they are issued. Pure
  specification functions (`SetupSpec`, `CompileSpec`, ...) say what error,
  what paths and what trace each method produces, and the lemmas state the
  source's promises about those functions.
 */
module SelfCompile {
  import opened GoLib
  import opened Errors

  const SrcDirName := "_self"
  const VendorDirName := "_vendor"
  const PluginFile := "plugin_selfcompile.go"
  const TmpPrefix := "go-selfcompile"

  const ErrRestoreAssets := Simple("missing RestoreAssets")
  const ErrNotImplemented := Simple("not implemented: Bundled source, must specify Install target.")

  /** What `exec.Cmd` is given: executable, argv, environment, working directory. */
  datatype Cmd = Cmd(path: string, args: seq<string>, env: seq<string>, dir: string)

  /** An external step the orchestrator issues. */
  datatype Action =
    | MakeTempDir(root: string, prefix: string)                       // ioutil.TempDir
    | RestoreInto(dir: string, name: string)                          // c.RestoreAssets(dir, name)
    | RunGo(cmd: Cmd)                                                 // cmd.Run
    | CreateStub(path: string, pkg: string, imports: seq<string>)     // stubPlugins
    | OverwriteFile(src: string, dst: string)                         // copyFile
    | RemoveTree(dir: string)                                         // os.RemoveAll

  /**
    The environment of one run: the inherited `PATH`; what
    `ioutil.TempDir` answers, a name or an error (this, not `failures`,
    answers a `MakeTempDir` action); what `exec.LookPath(os.Args[0])` and
    `filepath.Abs(os.Args[0])` answer; and the other actions that fail,
    with their errors (a run issues finitely many actions, so a finite map
    covers every behaviour; every action not in it succeeds). The
    `RestoreAssets` callback only writes files, so what a call of it
    returns is the world's answer to its `RestoreInto` action.
   */
  datatype World = World(
    inheritedPath: string,
    tempDir: Result<string>,
    lookPath: Result<string>,
    abs: Result<string>,
    failures: map<Action, Error>)

  /** What the world answers to an action: its error if it fails, nil otherwise. */
  function Run(w: World, a: Action): (r: MaybeError)
    ensures r.Some? <==> a in w.failures
  {
    if a in w.failures then Some(w.failures[a]) else None
  }

  /** The caller-visible configuration of a `SelfCompile` value. */
  datatype Config = Config(
    pkg: string,
    plugins: seq<string>,
    install: string,
    autoCleanup: bool,
    prefix: string,
    root: string,
    hasRestore: bool)

  /** The derived sandbox paths `workdir`, `srcdir` and `vendordir`. */
  datatype Dirs = Dirs(workdir: string, srcdir: string, vendordir: string)

  /** The error a run of steps ends with and the actions it issued. */
  datatype Outcome = Outcome(err: MaybeError, issued: seq<Action>)

  /** As `Outcome`, together with the paths the object holds afterwards. */
  datatype Step = Step(err: MaybeError, dirs: Dirs, issued: seq<Action>)

  // ---------------------------------------------------------------------
  // goRun's command, the path derivation and selfPath

  /** The command `goRun(args...)` runs. */
  function GoCommand(d: Dirs, inheritedPath: string, args: seq<string>): Cmd
  {
    var binpath := PathJoin([d.workdir, "bin"]);
    Cmd(PathJoin([binpath, "go"]), ["go"] + args,
        ["PATH=" + binpath + ":" + inheritedPath, "GOROOT=" + d.workdir, "GOPATH=" + d.vendordir],
        d.workdir)
  }

  /**
    goRun runs the sandbox's own `go` binary in the sandbox, with argv
    `go args...`, and an environment of exactly three variables: `PATH`
    with the sandbox's bin directory in front of the inherited one,
    `GOROOT` the sandbox and `GOPATH` the vendor directory.
   */
  lemma GoCommandShape(d: Dirs, inheritedPath: string, args: seq<string>)
    requires d.workdir != ""
    ensures var cmd := GoCommand(d, inheritedPath, args);
      && cmd.path == d.workdir + "/bin/go"
      && cmd.args == ["go"] + args && cmd.args[1..] == args
      && cmd.dir == d.workdir
      && |cmd.env| == 3
      && SplitN2(cmd.env[0], '=') == ["PATH", d.workdir + "/bin:" + inheritedPath]
      && SplitN2(cmd.env[1], '=') == ["GOROOT", d.workdir]
      && SplitN2(cmd.env[2], '=') == ["GOPATH", d.vendordir]
  {
    var binpath := d.workdir + "/bin";
    PathJoin2(d.workdir, "bin");
    assert d.workdir + "/" + "bin" == binpath;
    assert PathJoin([d.workdir, "bin"]) == binpath;
    PathJoin2(binpath, "go");
    assert binpath + "/" + "go" == d.workdir + "/bin/go";
    var cmd := GoCommand(d, inheritedPath, args);
    assert cmd.env[0] == "PATH" + ['='] + (binpath + ":" + inheritedPath);
    assert cmd.env[1] == "GOROOT" + ['='] + d.workdir;
    assert cmd.env[2] == "GOPATH" + ['='] + d.vendordir;
    assert binpath + ":" + inheritedPath == d.workdir + "/bin:" + inheritedPath;
    SplitN2Concat("PATH", '=', binpath + ":" + inheritedPath);
    SplitN2Concat("GOROOT", '=', d.workdir);
    SplitN2Concat("GOPATH", '=', d.vendordir);
  }

  /** The paths `setup` derives from a freshly created work dir. */
  function DeriveDirs(workdir: string, install: string): Dirs
  {
    var vendordir := PathJoin([workdir, VendorDirName]);
    var srcdir := if install == "" then PathJoin([workdir, SrcDirName])
                  else PathJoin([vendordir, "src", install]);
    Dirs(workdir, srcdir, vendordir)
  }

  /**
    `vendordir` is `workdir/_vendor`; `srcdir` is `workdir/_self` when
    there is no install target and `vendordir/src/<Install>` otherwise.
   */
  lemma DeriveDirsPaths(workdir: string, install: string)
    requires workdir != ""
    ensures var d := DeriveDirs(workdir, install);
      && d.workdir == workdir
      && d.vendordir == workdir + "/_vendor"
      && (install == "" ==> d.srcdir == workdir + "/_self")
      && (install != "" ==> d.srcdir == workdir + "/_vendor/src/" + install)
  {
    PathJoin2(workdir, VendorDirName);
    assert workdir + "/" + VendorDirName == workdir + ("/" + VendorDirName);
    assert "/" + VendorDirName == "/_vendor";
    var vendordir := workdir + "/_vendor";
    if install == "" {
      PathJoin2(workdir, SrcDirName);
      assert workdir + "/" + SrcDirName == workdir + ("/" + SrcDirName);
      assert "/" + SrcDirName == "/_self";
    } else {
      PathJoin3(vendordir, "src", install);
      assert vendordir + "/" + "src" + "/" + install == vendordir + ("/" + "src" + "/") + install;
      assert "/" + "src" + "/" == "/src/";
    }
  }

  /** The temp-dir name prefix `setup` uses. */
  function TempPrefix(c: Config): (p: string)
    ensures p != ""
    ensures c.prefix != "" ==> p == c.prefix
    ensures c.prefix == "" ==> p == TmpPrefix
  {
    if c.prefix != "" then c.prefix else TmpPrefix
  }

  /**
    `selfPath()`: the `exec.LookPath(os.Args[0])` answer when it succeeded
    with a non-empty path, otherwise whatever `filepath.Abs(os.Args[0])`
    answers (its path or its error).
   */
  function SelfPath(w: World): (r: Result<string>)
    ensures w.lookPath.Ok? && w.lookPath.value != "" ==> r == w.lookPath
    ensures !(w.lookPath.Ok? && w.lookPath.value != "") ==> r == w.abs
  {
    match w.lookPath
    case Ok(path) => if path != "" then Ok(path) else w.abs
    case Fail(_) => w.abs
  }

  /** Where `Compile` finds the freshly built binary. */
  function BinaryPath(vendordir: string, install: string): string
  {
    PathJoin([vendordir, "bin", Base(install)])
  }

  /** The new binary is `workdir/_vendor/bin/` followed by the base of the install target. */
  lemma BinaryPathShape(workdir: string, install: string)
    requires workdir != ""
    ensures BinaryPath(DeriveDirs(workdir, install).vendordir, install)
      == workdir + "/_vendor/bin/" + Base(install)
  {
    var b := Base(install);
    DeriveDirsPaths(workdir, install);
    PathJoin3(workdir + "/_vendor", "bin", b);
    assert workdir + "/_vendor" + "/" + "bin" + "/" + b == workdir + ("/_vendor" + "/" + "bin" + "/") + b;
    assert "/_vendor" + "/" + "bin" + "/" == "/_vendor/bin/";
  }

  /** `stubPlugins` writes to `srcdir/plugin_selfcompile.go`. */
  lemma StubPath(srcdir: string)
    requires srcdir != ""
    ensures PathJoin([srcdir, PluginFile]) == srcdir + "/plugin_selfcompile.go"
  {
    PathJoin2(srcdir, PluginFile);
    assert srcdir + "/" + PluginFile == srcdir + ("/" + PluginFile);
    assert "/" + PluginFile == "/plugin_selfcompile.go";
  }

  // ---------------------------------------------------------------------
  // Fail-fast sequencing

  /** Runs `steps` in order and stops at the first one that returns an error. */
  function FailFast(w: World, steps: seq<Action>): Outcome
  {
    if |steps| == 0 then Outcome(None, [])
    else
      var e := Run(w, steps[0]);
      if e.Some? then Outcome(e, [steps[0]])
      else
        var rest := FailFast(w, steps[1..]);
        Outcome(rest.err, [steps[0]] + rest.issued)
  }

  /**
    The issued actions are a prefix of the plan; every one but the last
    succeeded; a failure is the last issued action's error; success means
    the whole plan ran.
   */
  lemma {:induction false} FailFastPrefix(w: World, steps: seq<Action>)
    ensures var r := FailFast(w, steps);
      && |r.issued| <= |steps| && r.issued == steps[..|r.issued|]
      && (forall i :: 0 <= i < |r.issued| - 1 ==> Run(w, r.issued[i]).None?)
      && (r.err.None? ==> r.issued == steps
                          && forall i :: 0 <= i < |steps| ==> Run(w, steps[i]).None?)
      && (r.err.Some? ==> |r.issued| > 0 && r.err == Run(w, r.issued[|r.issued| - 1]))
  {
    if |steps| > 0 && Run(w, steps[0]).None? {
      FailFastPrefix(w, steps[1..]);
      var rest := FailFast(w, steps[1..]);
      assert steps[..|rest.issued| + 1] == [steps[0]] + steps[1..][..|rest.issued|];
      var all := [steps[0]] + rest.issued;
      forall i | 0 <= i < |all| - 1 ensures Run(w, all[i]).None? {
        if i > 0 {
          assert all[i] == rest.issued[i - 1];
        }
      }
      if rest.err.None? {
        forall i | 0 <= i < |steps| ensures Run(w, steps[i]).None? {
          if i > 0 {
            assert steps[i] == steps[1..][i - 1];
          }
        }
      }
    }
  }

  /** When every step succeeds, all of them run and the result is nil. */
  lemma {:induction false} FailFastAllSucceed(w: World, steps: seq<Action>)
    requires forall i :: 0 <= i < |steps| ==> Run(w, steps[i]).None?
    ensures FailFast(w, steps) == Outcome(None, steps)
  {
    if |steps| > 0 {
      assert forall i :: 0 <= i < |steps[1..]| ==> steps[1..][i] == steps[i + 1];
      FailFastAllSucceed(w, steps[1..]);
      assert steps == [steps[0]] + steps[1..];
    }
  }

  /** The first failing step `k` ends the run with its error; nothing after it runs. */
  lemma {:induction false} FailFastStopsAt(w: World, steps: seq<Action>, k: nat)
    requires k < |steps| && Run(w, steps[k]).Some?
    requires forall i :: 0 <= i < k ==> Run(w, steps[i]).None?
    ensures FailFast(w, steps) == Outcome(Run(w, steps[k]), steps[..k + 1])
  {
    if k > 0 {
      assert forall i :: 0 <= i < k - 1 ==> steps[1..][i] == steps[i + 1];
      FailFastStopsAt(w, steps[1..], k - 1);
      assert steps[..k + 1] == [steps[0]] + steps[1..][..k];
    }
  }

  // ---------------------------------------------------------------------
  // setup

  /** The steps of `setup` after the temp dir exists, in source order. */
  function SetupPlan(c: Config, d: Dirs, w: World): seq<Action>
  {
    [RestoreInto(d.workdir, "")]
    + (if c.install != "" then [RunGo(GoCommand(d, w.inheritedPath, ["get", "-d", c.install]))] else [])
    + [CreateStub(PathJoin([d.srcdir, PluginFile]), c.pkg, c.plugins),
       RunGo(GoCommand(d, w.inheritedPath, ["generate", c.install]))]
  }

  /**
    The steps of `setup` after the temp dir exists, each one run only when
    the previous one succeeded.
   */
  function SetupSteps(c: Config, d: Dirs, w: World): Outcome
  {
    var restored := RestoreInto(d.workdir, "");
    var e := Run(w, restored);
    if e.Some? then Outcome(e, [restored])
    else
      var fetch := RunGo(GoCommand(d, w.inheritedPath, ["get", "-d", c.install]));
      var fetched := if c.install == "" then Outcome(None, []) else Outcome(Run(w, fetch), [fetch]);
      if fetched.err.Some? then Outcome(fetched.err, [restored] + fetched.issued)
      else
        var stub := CreateStub(PathJoin([d.srcdir, PluginFile]), c.pkg, c.plugins);
        if Run(w, stub).Some? then Outcome(Run(w, stub), [restored] + fetched.issued + [stub])
        else
          var generate := RunGo(GoCommand(d, w.inheritedPath, ["generate", c.install]));
          Outcome(Run(w, generate), [restored] + fetched.issued + [stub] + [generate])
  }

  /** One step of a fail-fast run. */
  lemma FailFastCons(w: World, a: Action, rest: seq<Action>)
    ensures FailFast(w, [a] + rest) ==
      if Run(w, a).Some? then Outcome(Run(w, a), [a])
      else Outcome(FailFast(w, rest).err, [a] + FailFast(w, rest).issued)
  {
    assert ([a] + rest)[1..] == rest;
  }

  /** The steps of setup are exactly a fail-fast run of its plan. */
  lemma SetupStepsAreFailFast(c: Config, d: Dirs, w: World)
    ensures SetupSteps(c, d, w) == FailFast(w, SetupPlan(c, d, w))
  {
    var restored := RestoreInto(d.workdir, "");
    var fetch := RunGo(GoCommand(d, w.inheritedPath, ["get", "-d", c.install]));
    var stub := CreateStub(PathJoin([d.srcdir, PluginFile]), c.pkg, c.plugins);
    var generate := RunGo(GoCommand(d, w.inheritedPath, ["generate", c.install]));
    FailFastCons(w, generate, []);
    FailFastCons(w, stub, [generate]);
    if c.install != "" {
      FailFastCons(w, fetch, [stub, generate]);
      FailFastCons(w, restored, [fetch, stub, generate]);
      assert SetupPlan(c, d, w) == [restored] + [fetch, stub, generate];
    } else {
      FailFastCons(w, restored, [stub, generate]);
      assert SetupPlan(c, d, w) == [restored] + [stub, generate];
    }
  }

  /** What `setup()` returns, which paths the object then holds, and what it issued. */
  function SetupSpec(c: Config, d: Dirs, w: World): Step
  {
    if !c.hasRestore then Step(Some(ErrRestoreAssets), d, [])
    else
      var mk := MakeTempDir(c.root, TempPrefix(c));
      match w.tempDir
      case Fail(e) =>
        // ioutil.TempDir answers "" with its error, and setup assigns it to workdir
        Step(Some(e), d.(workdir := ""), [mk])
      case Ok(dir) =>
        var nd := DeriveDirs(dir, c.install);
        var r := SetupSteps(c, nd, w);
        Step(r.err, nd, [mk] + r.issued)
  }

  /** Without RestoreAssets, setup fails at once and touches nothing. */
  lemma SetupWithoutRestoreAssets(c: Config, d: Dirs, w: World)
    requires !c.hasRestore
    ensures SetupSpec(c, d, w) == Step(Some(ErrRestoreAssets), d, [])
  {
  }

  /**
    The temp dir is created first, under `Root`, with `Prefix` or the
    default prefix; if that fails, its error is returned, nothing else is
    issued, and `srcdir` and `vendordir` keep their old values.
   */
  lemma SetupTempDirFirst(c: Config, d: Dirs, w: World)
    requires c.hasRestore
    ensures var s := SetupSpec(c, d, w);
      |s.issued| >= 1 && s.issued[0] == MakeTempDir(c.root, if c.prefix != "" then c.prefix else "go-selfcompile")
    ensures w.tempDir.Fail? ==>
      SetupSpec(c, d, w) == Step(Some(w.tempDir.err),
                                 Dirs("", d.srcdir, d.vendordir), [MakeTempDir(c.root, TempPrefix(c))])
  {
  }

  /**
    With the sandbox `dir` created, setup plans: restore the assets into
    `dir`, `go get -d Install` (only with an install target), write the
    stub to `srcdir/plugin_selfcompile.go` listing the registered plugins
    in order, `go generate Install`.
   */
  lemma SetupPlanShape(c: Config, dir: string, w: World)
    requires dir != ""
    ensures var d := DeriveDirs(dir, c.install);
      var plan := SetupPlan(c, d, w);
      var stub := CreateStub(d.srcdir + "/plugin_selfcompile.go", c.pkg, c.plugins);
      var generate := RunGo(GoCommand(d, w.inheritedPath, ["generate", c.install]));
      && (c.install != "" ==>
            plan == [RestoreInto(dir, ""),
                     RunGo(GoCommand(d, w.inheritedPath, ["get", "-d", c.install])),
                     stub, generate])
      && (c.install == "" ==> plan == [RestoreInto(dir, ""), stub, generate])
  {
    var d := DeriveDirs(dir, c.install);
    DeriveDirsPaths(dir, c.install);
    assert d.srcdir != "";
    StubPath(d.srcdir);
  }

  /**
    setup succeeds exactly when RestoreAssets is set, the temp dir is
    created and every planned step succeeds; it then has issued the
    temp-dir creation and the whole plan.
   */
  lemma SetupSucceedsIff(c: Config, d: Dirs, w: World)
    ensures var s := SetupSpec(c, d, w);
      s.err.None? <==>
        && c.hasRestore
        && w.tempDir.Ok?
        && var plan := SetupPlan(c, DeriveDirs(w.tempDir.value, c.install), w);
           forall i :: 0 <= i < |plan| ==> Run(w, plan[i]).None?
    ensures var s := SetupSpec(c, d, w);
      s.err.None? ==>
        s.issued == [MakeTempDir(c.root, TempPrefix(c))]
                    + SetupPlan(c, DeriveDirs(w.tempDir.value, c.install), w)
  {
    if c.hasRestore && w.tempDir.Ok? {
      var nd := DeriveDirs(w.tempDir.value, c.install);
      var plan := SetupPlan(c, nd, w);
      SetupStepsAreFailFast(c, nd, w);
      FailFastPrefix(w, plan);
      if forall i :: 0 <= i < |plan| ==> Run(w, plan[i]).None? {
        FailFastAllSucceed(w, plan);
      }
    }
  }

  /**
    Short-circuit: if planned step `k` is the first to fail, setup returns
    its error and has issued exactly the temp dir and steps `0..k`.
   */
  lemma SetupShortCircuit(c: Config, d: Dirs, w: World, k: nat)
    requires c.hasRestore && w.tempDir.Ok?
    requires var plan := SetupPlan(c, DeriveDirs(w.tempDir.value, c.install), w);
      && k < |plan| && Run(w, plan[k]).Some?
      && forall i :: 0 <= i < k ==> Run(w, plan[i]).None?
    ensures var plan := SetupPlan(c, DeriveDirs(w.tempDir.value, c.install), w);
      var s := SetupSpec(c, d, w);
      && s.err == Run(w, plan[k])
      && s.issued == [MakeTempDir(c.root, TempPrefix(c))] + plan[..k + 1]
  {
    var nd := DeriveDirs(w.tempDir.value, c.install);
    var plan := SetupPlan(c, nd, w);
    SetupStepsAreFailFast(c, nd, w);
    FailFastStopsAt(w, plan, k);
  }

  // ---------------------------------------------------------------------
  // Cleanup and Compile

  /** What `Cleanup()` returns and issues for a given work dir. */
  function CleanupSpec(workdir: string, w: World): Outcome
  {
    if workdir == "" then Outcome(None, [])
    else Outcome(Run(w, RemoveTree(workdir)), [RemoveTree(workdir)])
  }

  /** The body of `Compile` after a successful setup, before the deferred cleanup. */
  function BuildSpec(c: Config, d: Dirs, w: World): Outcome
  {
    if c.install == "" then Outcome(Some(ErrNotImplemented), [])
    else
      var get := RunGo(GoCommand(d, w.inheritedPath, ["get", c.install]));
      if Run(w, get).Some? then Outcome(Run(w, get), [get])
      else
        match SelfPath(w)
        case Fail(e) => Outcome(Some(e), [get])
        case Ok(self) =>
          var cp := OverwriteFile(BinaryPath(d.vendordir, c.install), self);
          Outcome(Run(w, cp), [get] + [cp])
  }

  /**
    The part of `Compile` after a successful setup: the build and, with
    AutoCleanup, the deferred cleanup, whose error comes first in the merge.
   */
  function FinishSpec(c: Config, d: Dirs, w: World): Outcome
  {
    var b := BuildSpec(c, d, w);
    if c.autoCleanup then
      var cl := CleanupSpec(d.workdir, w);
      Outcome(Combine([cl.err, b.err]), b.issued + cl.issued)
    else b
  }

  /** What `Compile()` returns, which paths the object then holds, and what it issued. */
  function CompileSpec(c: Config, d: Dirs, w: World): Step
  {
    var s := SetupSpec(c, d, w);
    if s.err.Some? then s
    else
      var f := FinishSpec(c, s.dirs, w);
      Step(f.err, s.dirs, s.issued + f.issued)
  }

  /** A setup failure is returned as it is, and no cleanup runs even with AutoCleanup. */
  lemma CompileSetupFailure(c: Config, d: Dirs, w: World)
    requires SetupSpec(c, d, w).err.Some?
    ensures CompileSpec(c, d, w) == SetupSpec(c, d, w)
    ensures forall i :: 0 <= i < |CompileSpec(c, d, w).issued| ==> !CompileSpec(c, d, w).issued[i].RemoveTree?
  {
    var s := SetupSpec(c, d, w);
    if c.hasRestore && w.tempDir.Ok? {
      var nd := DeriveDirs(w.tempDir.value, c.install);
      var plan := SetupPlan(c, nd, w);
      SetupStepsAreFailFast(c, nd, w);
      FailFastPrefix(w, plan);
      forall i | 0 <= i < |s.issued| ensures !s.issued[i].RemoveTree? {
        if i > 0 {
          assert s.issued[i] == plan[i - 1];
        }
      }
    }
  }

  /**
    Without an install target, Compile fails with the "not implemented"
    error after setup, and issues neither `go get` nor a copy.
   */
  lemma CompileWithoutInstall(c: Config, d: Dirs, w: World)
    requires c.install == "" && SetupSpec(c, d, w).err.None?
    ensures var s := SetupSpec(c, d, w);
      var r := CompileSpec(c, d, w);
      && r.issued == s.issued + (if c.autoCleanup then CleanupSpec(s.dirs.workdir, w).issued else [])
      && (!c.autoCleanup ==> r.err == Some(ErrNotImplemented))
      && (c.autoCleanup && CleanupSpec(s.dirs.workdir, w).err.None? ==> r.err == Some(ErrNotImplemented))
  {
    var s := SetupSpec(c, d, w);
    CombinePair(CleanupSpec(s.dirs.workdir, w).err, Some(ErrNotImplemented));
    if !c.autoCleanup {
      assert s.issued + [] == s.issued;
    }
  }

  /**
    With AutoCleanup, after a successful setup the result is
    `combineErrors(Cleanup(), err)`: cleanup's error alone, the main error
    alone, or both combined with the cleanup error first; the removal of
    the work dir is the last action.
   */
  lemma CompileAutoCleanup(c: Config, d: Dirs, w: World)
    requires c.autoCleanup && SetupSpec(c, d, w).err.None?
    requires SetupSpec(c, d, w).dirs.workdir != ""
    ensures var s := SetupSpec(c, d, w);
      var main := BuildSpec(c, s.dirs, w).err;
      var cleanup := Run(w, RemoveTree(s.dirs.workdir));
      var r := CompileSpec(c, d, w);
      && |r.issued| > 0 && r.issued[|r.issued| - 1] == RemoveTree(s.dirs.workdir)
      && (cleanup.None? ==> r.err == main)
      && (main.None? ==> r.err == cleanup)
      && (cleanup.Some? && main.Some? ==>
            && r.err == Some(Combined([cleanup.value, main.value]))
            && Message(r.err.value) == "2 errors: " + Message(cleanup.value) + "; " + Message(main.value))
  {
    var s := SetupSpec(c, d, w);
    var main := BuildSpec(c, s.dirs, w).err;
    var cleanup := Run(w, RemoveTree(s.dirs.workdir));
    CombinePair(cleanup, main);
    if cleanup.Some? && main.Some? {
      CombinedPairMessage(cleanup.value, main.value);
    }
  }

  /**
    The build step succeeds exactly when there is an install target,
    `go get` succeeds, the self path resolves and the copy succeeds.
   */
  lemma BuildSucceedsIff(c: Config, d: Dirs, w: World)
    ensures BuildSpec(c, d, w).err.None? <==>
      && c.install != ""
      && Run(w, RunGo(GoCommand(d, w.inheritedPath, ["get", c.install]))).None?
      && SelfPath(w).Ok?
      && Run(w, OverwriteFile(BinaryPath(d.vendordir, c.install), SelfPath(w).value)).None?
  {
  }

  /**
    The build part stops at its first failure: a failing `go get` is
    returned with nothing issued after it; a self path that does not
    resolve is returned after the `go get` alone; the copy is issued only
    when both succeeded, and it is then the last action.
   */
  lemma BuildShortCircuit(c: Config, d: Dirs, w: World)
    requires c.install != ""
    ensures var get := RunGo(GoCommand(d, w.inheritedPath, ["get", c.install]));
      && (Run(w, get).Some? ==> BuildSpec(c, d, w) == Outcome(Run(w, get), [get]))
      && (Run(w, get).None? && SelfPath(w).Fail? ==>
            BuildSpec(c, d, w) == Outcome(Some(SelfPath(w).err), [get]))
      && (Run(w, get).None? && SelfPath(w).Ok? ==>
            var cp := OverwriteFile(BinaryPath(d.vendordir, c.install), SelfPath(w).value);
            BuildSpec(c, d, w) == Outcome(Run(w, cp), [get, cp]))
    ensures forall i :: 0 <= i < |BuildSpec(c, d, w).issued| && BuildSpec(c, d, w).issued[i].OverwriteFile? ==>
      && Run(w, RunGo(GoCommand(d, w.inheritedPath, ["get", c.install]))).None?
      && SelfPath(w).Ok?
      && i == |BuildSpec(c, d, w).issued| - 1
  {
    var get := RunGo(GoCommand(d, w.inheritedPath, ["get", c.install]));
    if Run(w, get).None? && SelfPath(w).Ok? {
      var cp := OverwriteFile(BinaryPath(d.vendordir, c.install), SelfPath(w).value);
      assert [get] + [cp] == [get, cp];
    }
  }

  /**
    Compile succeeds exactly when setup succeeds, there is an install
    target, `go get` succeeds, the self path resolves, the copy succeeds
    and, with AutoCleanup, the cleanup succeeds.
   */
  lemma CompileSucceedsIff(c: Config, d: Dirs, w: World)
    ensures var s := SetupSpec(c, d, w);
      CompileSpec(c, d, w).err.None? <==>
        && s.err.None?
        && BuildSpec(c, s.dirs, w).err.None?
        && (c.autoCleanup ==> CleanupSpec(s.dirs.workdir, w).err.None?)
  {
    var s := SetupSpec(c, d, w);
    if s.err.None? && c.autoCleanup {
      var b := BuildSpec(c, s.dirs, w);
      var cl := CleanupSpec(s.dirs.workdir, w);
      CombinePair(cl.err, b.err);
    }
  }

  /** In a world where nothing fails, setup issues the temp dir and its whole plan. */
  lemma SetupAllSucceed(c: Config, d: Dirs, w: World, dir: string)
    requires c.hasRestore && w.tempDir == Ok(dir) && w.failures == map[]
    ensures SetupSpec(c, d, w) ==
      Step(None, DeriveDirs(dir, c.install),
           [MakeTempDir(c.root, TempPrefix(c))] + SetupPlan(c, DeriveDirs(dir, c.install), w))
  {
    var nd := DeriveDirs(dir, c.install);
    FailFastAllSucceed(w, SetupPlan(c, nd, w));
    SetupStepsAreFailFast(c, nd, w);
  }

  /** In a world where nothing fails, the build fetches the target and copies it over the self path. */
  lemma BuildAllSucceed(c: Config, d: Dirs, w: World, self: string)
    requires c.install != "" && w.lookPath == Ok(self) && self != "" && w.failures == map[]
    ensures BuildSpec(c, d, w) ==
      Outcome(None, [RunGo(GoCommand(d, w.inheritedPath, ["get", c.install]))]
                    + [OverwriteFile(BinaryPath(d.vendordir, c.install), self)])
  {
  }

  /**
    When every step succeeds, Compile returns nil, and its last action
    before the cleanup copies `workdir/_vendor/bin/Base(Install)` over the
    path LookPath found.
   */
  lemma CompileAllSucceed(c: Config, d: Dirs, w: World, dir: string, self: string)
    requires c.hasRestore && c.install != ""
    requires w.tempDir == Ok(dir) && dir != ""
    requires w.lookPath == Ok(self) && self != ""
    requires w.failures == map[]
    ensures var r := CompileSpec(c, d, w);
      var copy := OverwriteFile(dir + "/_vendor/bin/" + Base(c.install), self);
      && r.err.None?
      && r.dirs == DeriveDirs(dir, c.install)
      && copy in r.issued
      && (!c.autoCleanup ==> r.issued[|r.issued| - 1] == copy)
  {
    SetupAllSucceed(c, d, w, dir);
    var s := SetupSpec(c, d, w);
    FinishAllSucceed(c, s.dirs, w, self);
    BinaryPathShape(dir, c.install);
    var f := FinishSpec(c, s.dirs, w);
    var r := CompileSpec(c, d, w);
    assert r.issued == s.issued + f.issued;
    assert r.issued[|s.issued| + 1] == f.issued[1];
  }

  /**
    In a world where nothing fails, the part after setup returns nil and
    its second action is the copy; without AutoCleanup that copy is the
    last action.
   */
  lemma FinishAllSucceed(c: Config, d: Dirs, w: World, self: string)
    requires c.install != "" && w.lookPath == Ok(self) && self != "" && w.failures == map[]
    ensures var f := FinishSpec(c, d, w);
      var copy := OverwriteFile(BinaryPath(d.vendordir, c.install), self);
      && f.err.None?
      && |f.issued| >= 2 && f.issued[1] == copy
      && (!c.autoCleanup ==> |f.issued| == 2)
  {
    BuildAllSucceed(c, d, w, self);
    var b := BuildSpec(c, d, w);
    if c.autoCleanup {
      CombinePair(CleanupSpec(d.workdir, w).err, b.err);
    }
  }

  // ---------------------------------------------------------------------
  // The SelfCompile object

  /** Concatenation of traces is associative. */
  lemma AppendAssoc(a: seq<Action>, b: seq<Action>, c: seq<Action>)
    ensures a + b + c == a + (b + c)
  {
  }

  /** A `SelfCompile` value: its configuration, the derived paths and the trace of issued actions. */
  class SelfCompile {
    var pkg: string
    var plugins: seq<string>
    var Install: string
    var AutoCleanup: bool
    var Prefix: string
    var Root: string
    var workdir: string
    var srcdir: string
    var vendordir: string
    /** Whether the `RestoreAssets` callback is set; what it returns is the world's answer. */
    var RestoreAssets: bool
    ghost var trace: seq<Action>

    /** A value as a caller builds it: no plugins and no sandbox yet. */
    constructor (pkg: string, install: string, autoCleanup: bool, prefix: string, root: string,
                 restore: bool)
      ensures this.pkg == pkg && Install == install && AutoCleanup == autoCleanup
      ensures Prefix == prefix && Root == root && RestoreAssets == restore
      ensures plugins == [] && Paths() == Dirs("", "", "") && trace == []
    {
      this.pkg := pkg;
      plugins := [];
      Install := install;
      AutoCleanup := autoCleanup;
      Prefix := prefix;
      Root := root;
      workdir, srcdir, vendordir := "", "", "";
      RestoreAssets := restore;
      trace := [];
    }

    /** The caller-visible fields as a value. */
    function Configuration(): Config
      reads this`pkg, this`plugins, this`Install, this`AutoCleanup, this`Prefix, this`Root, this`RestoreAssets
    {
      Config(pkg, plugins, Install, AutoCleanup, Prefix, Root, RestoreAssets)
    }

    /** The derived paths as a value. */
    function Paths(): Dirs
      reads this`workdir, this`srcdir, this`vendordir
    {
      Dirs(workdir, srcdir, vendordir)
    }

    /** `Plugin(p)`: registers `p` after the ones already registered. */
    method Plugin(p: string)
      modifies this`plugins
      ensures plugins == old(plugins) + [p]
    {
      plugins := plugins + [p];
    }

    /** `goRun(args...)`: runs the sandbox's `go` with `args`. */
    method GoRun(w: World, args: seq<string>) returns (err: MaybeError)
      modifies this`trace
      ensures var a := RunGo(GoCommand(Paths(), w.inheritedPath, args));
        err == Run(w, a) && trace == old(trace) + [a]
    {
      var cmd := GoCommand(Dirs(workdir, srcdir, vendordir), w.inheritedPath, args);
      trace := trace + [RunGo(cmd)];
      err := Run(w, RunGo(cmd));
    }

    /** `stubPlugins()`: writes the import stub for the registered plugins into `srcdir`. */
    method StubPlugins(w: World) returns (err: MaybeError)
      modifies this`trace
      ensures var a := CreateStub(PathJoin([srcdir, PluginFile]), pkg, plugins);
        err == Run(w, a) && trace == old(trace) + [a]
    {
      var path := PathJoin([srcdir, PluginFile]);
      trace := trace + [CreateStub(path, pkg, plugins)];
      err := Run(w, CreateStub(path, pkg, plugins));
    }

    /** `c.RestoreAssets(dir, name)`: writes the embedded assets under `dir`. */
    method Restore(w: World, dir: string, name: string) returns (err: MaybeError)
      modifies this`trace
      ensures err == Run(w, RestoreInto(dir, name)) && trace == old(trace) + [RestoreInto(dir, name)]
    {
      trace := trace + [RestoreInto(dir, name)];
      err := Run(w, RestoreInto(dir, name));
    }

    /** `copyFile(src, dst)`: overwrites `dst` with the contents of `src`. */
    method CopyFile(w: World, src: string, dst: string) returns (err: MaybeError)
      modifies this`trace
      ensures err == Run(w, OverwriteFile(src, dst)) && trace == old(trace) + [OverwriteFile(src, dst)]
    {
      trace := trace + [OverwriteFile(src, dst)];
      err := Run(w, OverwriteFile(src, dst));
    }

    /** `setup()`: a fresh sandbox, its paths, the assets, the source, the stub, `go generate`. */
    method Setup(w: World) returns (err: MaybeError)
      modifies this`workdir, this`srcdir, this`vendordir, this`trace
      ensures var s := SetupSpec(Configuration(), old(Paths()), w);
        err == s.err && Paths() == s.dirs && trace == old(trace) + s.issued
    {
      if !RestoreAssets {
        return Some(ErrRestoreAssets);
      }
      var prefix := TmpPrefix;
      if Prefix != "" {
        prefix := Prefix;
      }
      trace := trace + [MakeTempDir(Root, prefix)];
      var made := w.tempDir;
      if made.Fail? {
        workdir := "";
        return Some(made.err);
      }
      EnterWorkdir(made.value);
      err := PrepareSandbox(w);
      AppendAssoc(old(trace), [MakeTempDir(Root, prefix)], SetupSteps(Configuration(), Paths(), w).issued);
    }

    /** The paths `setup()` derives once the temp dir `dir` exists. */
    method EnterWorkdir(dir: string)
      modifies this`workdir, this`srcdir, this`vendordir
      ensures Paths() == DeriveDirs(dir, Install)
    {
      workdir := dir;
      vendordir := PathJoin([workdir, VendorDirName]);
      if Install == "" {
        srcdir := PathJoin([workdir, SrcDirName]);
      } else {
        srcdir := PathJoin([vendordir, "src", Install]);
      }
    }

    /**
      The part of `setup()` after the temp dir exists: restore, fetch, stub
      and generate, returning at the first error.
     */
    method PrepareSandbox(w: World) returns (err: MaybeError)
      requires RestoreAssets
      modifies this`trace
      ensures var r := SetupSteps(Configuration(), Paths(), w);
        err == r.err && trace == old(trace) + r.issued
    {
      ghost var t := trace;
      err := Restore(w, workdir, "");
      ghost var issued: seq<Action> := [RestoreInto(workdir, "")];
      if err.Some? {
        return;
      }
      ghost var fetched: seq<Action> := [];
      if Install != "" {
        var fetchErr := GoRun(w, ["get", "-d", Install]);
        fetched := [RunGo(GoCommand(Paths(), w.inheritedPath, ["get", "-d", Install]))];
        AppendAssoc(t, issued, fetched);
        if fetchErr.Some? {
          return fetchErr;
        }
      }
      issued := issued + fetched;
      err := StubPlugins(w);
      ghost var stub := CreateStub(PathJoin([srcdir, PluginFile]), pkg, plugins);
      AppendAssoc(t, issued, [stub]);
      issued := issued + [stub];
      if err.Some? {
        return;
      }
      err := GoRun(w, ["generate", Install]);
      ghost var generate := RunGo(GoCommand(Paths(), w.inheritedPath, ["generate", Install]));
      AppendAssoc(t, issued, [generate]);
    }

    /** `Cleanup()`: removes the work dir, if there is one; never resets `workdir`. */
    method Cleanup(w: World) returns (err: MaybeError)
      modifies this`trace
      ensures var o := CleanupSpec(workdir, w); err == o.err && trace == old(trace) + o.issued
    {
      if workdir == "" {
        return None;
      }
      trace := trace + [RemoveTree(workdir)];
      err := Run(w, RemoveTree(workdir));
    }

    /** `Compile()`: setup, build the install target, replace the binary, deferred cleanup. */
    method Compile(w: World) returns (err: MaybeError)
      modifies this`workdir, this`srcdir, this`vendordir, this`trace
      ensures var s := CompileSpec(Configuration(), old(Paths()), w);
        err == s.err && Paths() == s.dirs && trace == old(trace) + s.issued
    {
      ghost var c, d, t := Configuration(), Paths(), trace;
      err := Setup(w);
      ghost var s := SetupSpec(c, d, w);
      if err.None? {
        err := Finish(w);
        ghost var f := FinishSpec(c, s.dirs, w);
        AppendAssoc(t, s.issued, f.issued);
      }
    }

    /** The rest of `Compile()` once setup succeeded, with the deferred cleanup. */
    method Finish(w: World) returns (err: MaybeError)
      modifies this`trace
      ensures var f := FinishSpec(Configuration(), Paths(), w);
        err == f.err && trace == old(trace) + f.issued
    {
      ghost var t := trace;
      err := BuildAndReplace(w);
      if AutoCleanup {
        var cleanupErr := Cleanup(w);
        err := CombineErrors([cleanupErr, err]);
        AppendAssoc(t, BuildSpec(Configuration(), Paths(), w).issued, CleanupSpec(workdir, w).issued);
      }
    }

    /**
      The body of `Compile()` between a successful setup and the deferred
      cleanup: `go get Install`, resolve the self path, copy the binary.
     */
    method BuildAndReplace(w: World) returns (err: MaybeError)
      modifies this`trace
      ensures var b := BuildSpec(Configuration(), Paths(), w);
        err == b.err && trace == old(trace) + b.issued
    {
      if Install == "" {
        // bundled source is not supported
        err := Some(ErrNotImplemented);
      } else {
        err := GoRun(w, ["get", Install]);
        if err.None? {
          var self := SelfPath(w);
          if self.Fail? {
            err := Some(self.err);
          } else {
            err := CopyFile(w, BinaryPath(vendordir, Install), self.value);
            AppendAssoc(old(trace), [RunGo(GoCommand(Paths(), w.inheritedPath, ["get", Install]))],
                        [OverwriteFile(BinaryPath(vendordir, Install), self.value)]);
          }
        }
      }
    }
  }

  /** In a world where nothing fails, setup writes the stub for exactly the registered plugins. */
  lemma SetupStubListsPlugins(c: Config, d: Dirs, w: World, dir: string)
    requires c.hasRestore && w.tempDir == Ok(dir) && dir != "" && w.failures == map[]
    ensures var s := SetupSpec(c, d, w);
      CreateStub(s.dirs.srcdir + "/plugin_selfcompile.go", c.pkg, c.plugins) in s.issued
  {
    SetupAllSucceed(c, d, w, dir);
    var nd := DeriveDirs(dir, c.install);
    var plan := SetupPlan(c, nd, w);
    var stub := CreateStub(PathJoin([nd.srcdir, PluginFile]), c.pkg, c.plugins);
    assert SetupSpec(c, d, w).issued[|plan| - 1] == stub by {
      assert stub == plan[|plan| - 2];
    }
    DeriveDirsPaths(dir, c.install);
    StubPath(nd.srcdir);
  }

  /**
    A caller registers two plugins and runs setup in a world where every
    step succeeds: the stub in `dir/_self` lists both plugins, in order.
   */
  method RegisterAndSetup(w: World, dir: string)
    requires w.tempDir == Ok(dir) && dir != ""
    requires w.failures == map[]
  {
    var sc := new SelfCompile("main", "", false, "", "", true);
    sc.Plugin("a/b");
    sc.Plugin("c/d");
    ghost var c := sc.Configuration();
    assert c.plugins == ["a/b", "c/d"];
    SetupStubListsPlugins(c, sc.Paths(), w, dir);
    DeriveDirsPaths(dir, "");
    SetupAllSucceed(c, sc.Paths(), w, dir);
    var err := sc.Setup(w);
    assert sc.Configuration() == c;
    assert err.None?;
    assert sc.srcdir == dir + "/_self";
    assert CreateStub(sc.srcdir + "/plugin_selfcompile.go", "main", ["a/b", "c/d"]) in sc.trace;
  }
}
