# go-selfcompile, modelled in Dafny

go-selfcompile lets a Go program rebuild itself with a different set of
plugins. The binary embeds a Go toolchain and its own sources. A
`SelfCompile` value collects plugin import paths. `Compile` then does
four things:

- It builds a fresh sandbox (`setup`): it creates a temp dir, derives
  `workdir`, `srcdir` and `vendordir`, restores the embedded assets, runs
  `go get -d`, writes a stub file that imports the plugins, and runs
  `go generate`.
- It builds the install target with `go get`.
- It copies the new binary over the running one, at the path `selfPath`
  resolves.
- With `AutoCleanup`, it removes the sandbox in a deferred call and merges
  that call's error with the main one through `combineErrors`.

The `go-selfcompile` command bundles the toolchain. Two of its pure helpers
are modelled: the parser that reads `go env` output into a map, and the
fixed list of toolchain inputs.

The project has four modules:

- `GoLib` (golib.dfy) covers the Go standard-library functions the core
  relies on: `strings.Join`, `strings.SplitN(s, "=", 2)`, `strings.Trim`
  with a one-character cutset, `%d`, and the Unix forms of `filepath.Join`
  and `filepath.Base`.
- `Errors` (errors.dfy) covers `combineErrors` and
  `combinedErrors.Error()`. Each is a loop method proved equal to a
  specification function (`Combine`, `Message`), and the source's promises
  are lemmas about those functions.
- `SelfCompile` (selfcompile.dfy) covers the orchestrator:
  - a `class SelfCompile` with the source's fields;
  - a ghost `trace` of the external actions it issues (temp dir, asset
    restore, `go` runs, stub creation, copy, removal);
  - a `World` value that answers each action, in place of the file system
    and subprocesses.

  Every method is proved to produce the error, the paths and the trace
  given by a specification function (`SetupSpec`, `BuildSpec`,
  `FinishSpec`, `CompileSpec`, `CleanupSpec`). Lemmas about those
  functions state the step order, the short-circuiting, the path
  derivation, the cleanup merge and the `goRun` command.
- `BundleCli` (goenv.dfy) covers the `go env` loop as a method proved
  equal to `ParseEnv`, and `goInputs`.

The code is followed in the two places where it can be read otherwise:

- In `Compile`, a failing `setup` returns before the deferred cleanup is
  registered, so `AutoCleanup` does not remove a sandbox that `setup`
  already created. `CompileSetupFailure` states this.
- With an empty `Install`, `setup` still restores the assets, writes the
  stub and runs `go generate ""` before `Compile` reports the
  "not implemented" error.

`RegisterAndSetup` is a client of the class with no contract of its own. It registers two plugins on a value whose install target is empty, runs `Setup` in a world where nothing fails, and asserts that the stub in `dir/_self` lists both plugins, in order.

## Model

| member | source | states |
|---|---|---|
| GoLib.JoinCons | errors.go:16 | joining `[x] + rest` gives `x`, the separator, then the join of `rest` |
| GoLib.JoinPair | errors.go:16 | two parts are joined with exactly one separator between them |
| GoLib.JoinLength | errors.go:16 | the joined length is the sum of the parts' lengths plus one separator per gap |
| GoLib.Itoa | errors.go:11 | `%d` of a count is a non-empty digit string with no leading zero |
| GoLib.ItoaRoundTrip | errors.go:11 | reading the rendered count back as a decimal number gives the count |
| GoLib.IndexOf | go-selfcompile/main.go:39 | the index of the first occurrence of a character, or -1 exactly when it is absent |
| GoLib.SplitN2 | go-selfcompile/main.go:39 | `SplitN(s, "=", 2)` has two parts exactly when `=` occurs; the first part has no `=`; the parts rejoined with `=` give `s`; otherwise the one part is `s` |
| GoLib.IndexOfAfterKey | go-selfcompile/main.go:39 | in `key + "=" + rest`, with no `=` in `key`, the first `=` is at the length of `key` |
| GoLib.SplitN2Concat | go-selfcompile/main.go:39-40 | a line `key=value`, with no `=` in `key`, splits into exactly `key` and `value`, whatever `=` the value holds |
| GoLib.TrimEnds | go-selfcompile/main.go:41 | the trimmed value is empty or neither starts nor ends with the cutset character |
| GoLib.TrimDropsPrefix | go-selfcompile/main.go:41 | any leading run of the cutset character is removed, whatever its length |
| GoLib.TrimDropsSuffix | go-selfcompile/main.go:41 | any trailing run of the cutset character is removed, whatever its length |
| GoLib.TrimWrapped | go-selfcompile/main.go:41 | a value wrapped in runs of the cutset character on both sides trims to that value, inner copies kept |
| GoLib.TrimAll | go-selfcompile/main.go:41 | a value made only of the cutset character trims to the empty string |
| GoLib.TrimIdempotent | go-selfcompile/main.go:41 | trimming twice gives the same as trimming once |
| GoLib.NonEmpty | selfcompile.go:107 | the elements `filepath.Join` keeps are all non-empty |
| GoLib.PathJoin2 | selfcompile.go:107 | joining two non-empty elements puts one `/` between them |
| GoLib.PathJoin3 | selfcompile.go:171 | joining three non-empty elements puts a `/` between neighbours |
| GoLib.StripTrailingSlashes | selfcompile.go:85 | the result is a prefix of the path, only `/` characters are dropped, and it does not end in `/` |
| GoLib.AfterLastSlash | selfcompile.go:85 | the result is a slash-free suffix of the path, preceded by a `/` when shorter than the path |
| GoLib.Base | selfcompile.go:85 | `filepath.Base` is never empty, is `.` for the empty path, and is `/` or has no `/` in it |
| GoLib.AfterLastSlashOfChild | selfcompile.go:85 | after the last `/` of `dir/name` comes `name`, when `name` has no `/` |
| GoLib.AfterLastSlashOfName | selfcompile.go:85 | a slash-free string is all of itself after its last `/` |
| GoLib.BaseOfChild | selfcompile.go:85 | the base of `dir/name` is `name` for a non-empty slash-free `name` |
| GoLib.BaseOfName | selfcompile.go:85 | a non-empty install path without `/` is its own base |
| Errors.CombineErrors | errors.go:20-35 | the loop that collects the non-nil errors, followed by the 0/1/many collapse, returns `Combine(errs)` |
| Errors.NonNilAppend | errors.go:23-27 | the nil filter distributes over concatenation, so relative order is kept |
| Errors.NonNilSingle | errors.go:24-26 | a nil contributes nothing; a non-nil error contributes itself |
| Errors.NonNilMembers | errors.go:23-27 | an error is kept if and only if it was passed in |
| Errors.NonNilEmpty | errors.go:23-27 | nothing is kept if and only if every argument is nil |
| Errors.CombineNilIff | errors.go:20-35 | the result is nil if and only if every argument is nil, and with no arguments at all |
| Errors.CombineSingle | errors.go:31-33 | with exactly one non-nil argument, the result is that very error |
| Errors.CombineMany | errors.go:34 | with two or more non-nil arguments, the result is a `combinedErrors` of all of them in order, whose length is their number |
| Errors.CombinePair | errors.go:20-35 | `combineErrors(a, b)` is `b` when `a` is nil, `a` when `b` is nil, and both in that order otherwise |
| Errors.CombinedMessage | errors.go:10-17 | the message loop returns `Message(Combined(errs))`: the count, " errors: ", then each message in input order joined by "; " |
| Errors.CombinedMessageShape | errors.go:10-17 | the message of two or more errors begins with the count, " errors: ", the first message and "; " |
| Errors.CombinedPairMessage | errors.go:10-17 | the message of two combined errors is exactly "2 errors: ", the first message, "; " and the second message |
| Errors.RepeatedMessage | errors.go:10-17 | an error combined with itself gives "2 errors: m; m", with no deduplication |
| Errors.CombineTestCases | errors_test.go:8-22 | no arguments give nil; one error gives that error; "hello" twice gives "2 errors: hello; hello" |
| SelfCompile.Run | selfcompile.go:124 | an external step fails exactly when the world lists it as failing |
| SelfCompile.GoCommandShape | selfcompile.go:105-125 | goRun runs `<workdir>/bin/go` in `workdir` with argv `["go"] + args`, and an environment of exactly `PATH=<workdir>/bin:<inherited PATH>`, `GOROOT=<workdir>` and `GOPATH=<vendordir>` |
| SelfCompile.DeriveDirsPaths | selfcompile.go:166-172 | `vendordir` is `workdir/_vendor`; `srcdir` is `workdir/_self` without an install target and `workdir/_vendor/src/<Install>` with one |
| SelfCompile.TempPrefix | selfcompile.go:156-159 | the temp-dir prefix is `Prefix` when it is non-empty, else "go-selfcompile" |
| SelfCompile.SelfPath | selfcompile.go:215-221 | the LookPath answer when it succeeded with a non-empty path, else the Abs answer (path or error) |
| SelfCompile.BinaryPathShape | selfcompile.go:85 | the built binary is `workdir/_vendor/bin/Base(Install)` |
| SelfCompile.StubPath | selfcompile.go:130 | the stub is written to `srcdir/plugin_selfcompile.go` |
| SelfCompile.FailFastPrefix | selfcompile.go:174-200 | a fail-fast run issues a prefix of its plan; every issued step but the last succeeded; a failure is the last issued step's error; success means the whole plan ran and every step succeeded |
| SelfCompile.FailFastAllSucceed | selfcompile.go:174-200 | when every step succeeds, all run and the result is nil |
| SelfCompile.FailFastStopsAt | selfcompile.go:174-200 | the first failing step ends the run with its error, and no later step is issued |
| SelfCompile.FailFastCons | selfcompile.go:174-178 | one step of a fail-fast run: stop with the step's error, or go on with the rest |
| SelfCompile.SetupStepsAreFailFast | selfcompile.go:174-200 | the steps of setup after the temp dir exists are exactly a fail-fast run of its plan |
| SelfCompile.SetupWithoutRestoreAssets | selfcompile.go:152-154 | without RestoreAssets, setup returns errRestoreAssets, issues nothing and leaves `workdir`, `srcdir` and `vendordir` unchanged |
| SelfCompile.SetupTempDirFirst | selfcompile.go:156-163 | the temp dir under `Root` with the chosen prefix is the first step; if it fails, its error is returned, nothing else is issued, `workdir` becomes "" and the other paths are kept |
| SelfCompile.SetupPlanShape | selfcompile.go:174-200 | the plan is: restore into `workdir`, `go get -d Install` only with an install target, the stub at `srcdir/plugin_selfcompile.go` with the package and plugins, then `go generate Install` |
| SelfCompile.SetupSucceedsIff | selfcompile.go:150-201 | setup returns nil if and only if RestoreAssets is set, the temp dir is created and every planned step succeeds; it has then issued the temp dir and the whole plan |
| SelfCompile.SetupShortCircuit | selfcompile.go:174-200 | if planned step k is the first to fail, setup returns its error and has issued exactly the temp dir and steps 0 to k |
| SelfCompile.CompileSetupFailure | selfcompile.go:56-64 | a setup failure is returned as it is, with the same paths and trace, and no removal is issued even with AutoCleanup |
| SelfCompile.CompileWithoutInstall | selfcompile.go:66-70 | without an install target, Compile after setup issues neither `go get` nor a copy, only the cleanup when enabled, and returns the "not implemented" error unless the cleanup fails as well |
| SelfCompile.CompileAutoCleanup | selfcompile.go:60-64 | with AutoCleanup the work dir's removal is the last action; the result is the cleanup error alone, the main error alone, or both combined with the cleanup error first, whose message is exactly "2 errors: ", the cleanup message, "; " and the main message |
| SelfCompile.BuildSucceedsIff | selfcompile.go:66-86 | the build part succeeds if and only if there is an install target, `go get Install` succeeds, the self path resolves and the copy onto it succeeds |
| SelfCompile.BuildShortCircuit | selfcompile.go:74-85 | the build part stops at its first failure: a failing `go get` is returned with nothing after it; an unresolved self path is returned after the `go get` alone; the copy is issued only when both succeeded, and then as the last action |
| SelfCompile.CompileSucceedsIff | selfcompile.go:55-87 | Compile returns nil if and only if setup succeeds, the build part succeeds and, with AutoCleanup, the cleanup succeeds |
| SelfCompile.SetupAllSucceed | selfcompile.go:150-201 | in a world where nothing fails, setup returns nil with the derived paths, having issued the temp dir and the whole plan |
| SelfCompile.BuildAllSucceed | selfcompile.go:74-86 | in a world where nothing fails, the build issues `go get Install` and then the copy of `vendordir/bin/Base(Install)` onto the LookPath answer |
| SelfCompile.FinishAllSucceed | selfcompile.go:60-86 | in a world where nothing fails, the part after setup returns nil, its second action is the copy, and without AutoCleanup nothing follows the copy |
| SelfCompile.CompileAllSucceed | selfcompile.go:55-87 | in a world where nothing fails, Compile returns nil with the derived paths and issues the copy of `workdir/_vendor/bin/Base(Install)` onto the self path, as the last action without AutoCleanup |
| SelfCompile.SetupStubListsPlugins | selfcompile.go:128-146 | in a world where nothing fails, setup writes the stub at `srcdir/plugin_selfcompile.go` for the package and exactly the registered plugins |
| SelfCompile.SelfCompile.constructor | selfcompile.go:25-45 | a new value holds the given configuration, no plugins, empty paths and an empty trace |
| SelfCompile.SelfCompile.Plugin | selfcompile.go:50-52 | `p` is appended after the plugins already registered, which stay unchanged, with no deduplication |
| SelfCompile.SelfCompile.GoRun | selfcompile.go:105-125 | one `go` run with the command `GoCommand` builds from the current paths; returns the world's answer and appends it to the trace |
| SelfCompile.SelfCompile.StubPlugins | selfcompile.go:128-146 | one stub creation at `srcdir/plugin_selfcompile.go` with the package and plugins; returns the world's answer |
| SelfCompile.SelfCompile.Restore | selfcompile.go:175 | one RestoreAssets call into the given directory; returns the world's answer |
| SelfCompile.SelfCompile.CopyFile | selfcompile.go:89-103 | one overwrite of `dst` from `src`; returns the world's answer |
| SelfCompile.SelfCompile.Setup | selfcompile.go:150-201 | returns the error of `SetupSpec`, leaves the object's paths as `SetupSpec` says, and extends the trace with its actions |
| SelfCompile.SelfCompile.EnterWorkdir | selfcompile.go:160-172 | after the temp dir exists, the object's paths are those `DeriveDirs` gives |
| SelfCompile.SelfCompile.PrepareSandbox | selfcompile.go:174-200 | restore, fetch, stub and generate, returning at the first error, as `SetupSteps` says |
| SelfCompile.SelfCompile.Cleanup | selfcompile.go:205-212 | nil and no action when `workdir` is empty; otherwise the removal's answer; `workdir` itself is never reset |
| SelfCompile.SelfCompile.Compile | selfcompile.go:55-87 | returns the error of `CompileSpec`, leaves the paths as it says, and extends the trace with its actions |
| SelfCompile.SelfCompile.Finish | selfcompile.go:60-86 | the build part, then with AutoCleanup the cleanup and `combineErrors(cleanup, err)`, as `FinishSpec` says |
| SelfCompile.SelfCompile.BuildAndReplace | selfcompile.go:66-86 | "not implemented" without an install target; otherwise `go get`, the self path, then the copy, stopping at the first error, as `BuildSpec` says |
| BundleCli.ParseEnvStaysFailed | go-selfcompile/main.go:37-42 | once a line without `=` has been read, the whole parse fails |
| BundleCli.GoEnv | go-selfcompile/main.go:37-42 | the scanning loop yields `ParseEnv(lines)`: each line split at the first `=` and stored with its value trimmed, or failure at a line without `=` |
| BundleCli.ParseEnvDefinedIff | go-selfcompile/main.go:39-40 | the parse succeeds if and only if every line contains `=` |
| BundleCli.ParseEnvKeys | go-selfcompile/main.go:37-42 | the keys of the map are exactly the keys of the lines |
| BundleCli.ParseEnvLastWins | go-selfcompile/main.go:41 | the value for a key is that of the last line carrying it; an earlier line with that key is overwritten |
| BundleCli.ParseLine | go-selfcompile/main.go:39-41 | `key=value` with no `=` in `key` gives `key` and the trimmed value, whatever `=` the value holds |
| BundleCli.TrimQuotesExample | go-selfcompile/main.go:41 | `""a"b""` loses every quote at either end and keeps the inner one; `""` becomes empty |
| BundleCli.GoInputs | go-selfcompile/main.go:46-63 | exactly six inputs, and only the first two are recursive |
| BundleCli.GoInputsPaths | go-selfcompile/main.go:50-61 | in order: `goroot/src`, `goroot/pkg/include`, `gotooldir/asm`, `gotooldir/compile`, `gotooldir/link`, `goroot/bin/go` |

## Left out

- The file system and subprocesses: `ioutil.TempDir`, `cmd.Run`, `os.Create`, `io.Copy` and `os.RemoveAll` are not executed. Each is an `Action` recorded in the trace. The answer of `ioutil.TempDir`, a name or an error, is `World.tempDir`; a `MakeTempDir` entry in `World.failures` is never consulted. The errors of all the other actions are looked up in `World.failures`. Only the arguments passed and whether a call fails are modelled, not file contents or process output.
- The `RestoreAssets` field is a function value in Go. Here it is a boolean that says whether it is set; what a call returns is the world's answer to the `RestoreInto` action.
- `ioutil.TempDir` returns a fresh name; the world supplies it, and uniqueness is not modelled.
- `exec.LookPath` and `filepath.Abs` are answers supplied by the world; only the fallback rule of `selfPath` is modelled.
- The `plugin` type and its `WriteTo` are not part of this model. The stub is recorded only by its path, package and imports, and a write error is the world's answer to `CreateStub`.
- `filepath.Join` is modelled without `filepath.Clean`. The model assumes that `Root`, the temp dir name and `Install` are already clean: no trailing `/`, no `//`, no `.` or `..` elements. `Install` is set by the caller, and for one like `github.com/a/b/` Go would clean `srcdir` to `…/src/github.com/a/b`, while the model keeps `…/src/github.com/a/b/` and the stub path then contains `//`. `filepath.Base` (selfcompile.go:85) strips trailing slashes and is modelled in full.
- `filepath.Base` is modelled for `/` separators only.
- The `logger.Println` and `logger.Printf` calls are left out. They only write to a logger that discards by default.
- `package.go`, `logger.go` and `example/abinary/main.go` are not part of this model.
- In `go-selfcompile/main.go`, these are left out: the `exec.Command`, `StdoutPipe`, `Start` and `Wait` plumbing of `goEnv`, the scanner's `in.Err()`, flag parsing, `os.Exit`, the version string and `bindata.Translate`.
- GoEnv: the lines `go env` prints are a parameter. The out-of-range `parts[1]` panic on a line without `=` is modelled as a `None` result for the whole parse.
- Errors are compared as values. Go compares `errors.New` values by identity, so two distinct errors with the same message are equal here.
- Concurrency: the source has none, and concurrent `Compile` calls are not modelled.
