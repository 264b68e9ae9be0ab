/**
  The two pure helpers of the go-selfcompile command: the parser that
  turns the lines `go env` prints into a map, and the fixed list of
  toolchain artifacts that are bundled into the binary.
 */
module BundleCli {
  import opened GoLib
  import opened Errors

  // ---------------------------------------------------------------------
  // goEnv's line parser

  /** The name on a `go env` line: everything before the first `=`. */
  function Key(line: string): string
  {
    var k := IndexOf(line, '=');
    if k < 0 then line else line[..k]
  }

  /**
    The value on a `go env` line: everything after the first `=`, with
    every leading and trailing `"` removed.
   */
  function Value(line: string): string
    requires '=' in line
  {
    Trim(line[IndexOf(line, '=') + 1..], '"')
  }

  /**
    The map `goEnv` fills from `lines`, one entry per line, a later line
    replacing an earlier one with the same key; `None` when some line has
    no `=`, where `goEnv` indexes past the end of the split and panics.
   */
  function ParseEnv(lines: seq<string>): Option<map<string, string>>
  {
    if |lines| == 0 then Some(map[])
    else
      var last := lines[|lines| - 1];
      match ParseEnv(lines[..|lines| - 1])
      case None => None
      case Some(env) =>
        if '=' in last then Some(env[Key(last) := Value(last)]) else None
  }

  /** Once a prefix of the lines has failed, so have all longer prefixes. */
  lemma {:induction false} ParseEnvStaysFailed(lines: seq<string>, n: nat)
    requires n <= |lines| && ParseEnv(lines[..n]).None?
    ensures ParseEnv(lines).None?
  {
    if n < |lines| {
      var init := lines[..|lines| - 1];
      assert init[..n] == lines[..n];
      ParseEnvStaysFailed(init, n);
    } else {
      assert lines[..n] == lines;
    }
  }

  /** The loop of `goEnv`: each scanned line split at `=` and stored, quotes trimmed. */
  method GoEnv(lines: seq<string>) returns (r: Option<map<string, string>>)
    ensures r == ParseEnv(lines)
  {
    var env: map<string, string> := map[];
    for i := 0 to |lines|
      invariant ParseEnv(lines[..i]) == Some(env)
    {
      assert lines[..i + 1][..i] == lines[..i];
      var parts := SplitN2(lines[i], '=');
      if |parts| < 2 {
        ParseEnvStaysFailed(lines, i + 1);
        return None;
      }
      env := env[parts[0] := Trim(parts[1], '"')];
    }
    assert lines[..|lines|] == lines;
    return Some(env);
  }

  /** The parse succeeds exactly when every line has an `=`. */
  lemma {:induction false} ParseEnvDefinedIff(lines: seq<string>)
    ensures ParseEnv(lines).Some? <==> forall i :: 0 <= i < |lines| ==> '=' in lines[i]
  {
    if |lines| > 0 {
      var init, last := lines[..|lines| - 1], lines[|lines| - 1];
      ParseEnvDefinedIff(init);
      if ParseEnv(lines).Some? {
        forall i | 0 <= i < |lines| ensures '=' in lines[i] {
          if i < |init| {
            assert lines[i] == init[i];
          }
        }
      } else if ParseEnv(init).Some? {
        assert '=' !in lines[|lines| - 1];
      } else {
        var i :| 0 <= i < |init| && '=' !in init[i];
        assert lines[i] == init[i];
      }
    }
  }

  /** The keys of the map are exactly the keys of the lines. */
  lemma {:induction false} ParseEnvKeys(lines: seq<string>, k: string)
    requires ParseEnv(lines).Some?
    ensures k in ParseEnv(lines).value <==> exists i :: 0 <= i < |lines| && Key(lines[i]) == k
  {
    if |lines| > 0 {
      var init, last := lines[..|lines| - 1], lines[|lines| - 1];
      ParseEnvKeys(init, k);
      var env := ParseEnv(init).value;
      assert ParseEnv(lines).value == env[Key(last) := Value(last)];
      if k in ParseEnv(lines).value {
        if k == Key(last) {
          assert Key(lines[|lines| - 1]) == k;
        } else {
          assert k in env;
          var i :| 0 <= i < |init| && Key(init[i]) == k;
          assert lines[i] == init[i];
          assert Key(lines[i]) == k;
        }
      }
      if exists i :: 0 <= i < |lines| && Key(lines[i]) == k {
        var i :| 0 <= i < |lines| && Key(lines[i]) == k;
        if i < |init| {
          assert init[i] == lines[i];
          assert k in env;
        } else {
          assert k == Key(last);
        }
        assert k in ParseEnv(lines).value;
      }
    }
  }

  /**
    The last line with a given key decides its value: a key that appears
    again overwrites the earlier value.
   */
  lemma {:induction false} ParseEnvLastWins(lines: seq<string>, i: nat)
    requires ParseEnv(lines).Some? && i < |lines|
    requires forall j :: i < j < |lines| ==> Key(lines[j]) != Key(lines[i])
    ensures '=' in lines[i]
    ensures Key(lines[i]) in ParseEnv(lines).value
    ensures ParseEnv(lines).value[Key(lines[i])] == Value(lines[i])
  {
    var init := lines[..|lines| - 1];
    if i < |init| {
      assert init[i] == lines[i];
      assert forall j :: i < j < |init| ==> init[j] == lines[j];
      ParseEnvLastWins(init, i);
    }
  }

  /**
    A line is split at its first `=` only: a key without `=` followed by
    any value, which may hold more `=` characters, gives that key and the
    trimmed value.
   */
  lemma ParseLine(key: string, value: string)
    requires '=' !in key
    ensures var line := key + "=" + value;
      '=' in line && Key(line) == key && Value(line) == Trim(value, '"')
  {
    var line := key + "=" + value;
    assert line == key + ['='] + value;
    SplitN2Concat(key, '=', value);
    assert line[|key|] == '=';
  }

  /**
    `strings.Trim` takes a cutset: a value quoted twice over loses every
    quote at either end, not one matching pair, and a quote inside the
    value stays; a value of quotes only becomes empty.
   */
  lemma TrimQuotesExample()
    ensures Value("GOFLAGS" + "=" + "\"\"a\"b\"\"") == "a\"b"
    ensures Value("CC" + "=" + "\"\"") == ""
  {
    var quotes, inner := "\"\"", "a\"b";
    assert "\"\"a\"b\"\"" == quotes + inner + quotes;
    ParseLine("GOFLAGS", quotes + inner + quotes);
    TrimWrapped(quotes, inner, quotes, '"');
    ParseLine("CC", quotes);
    TrimAll(quotes, '"');
  }

  // ---------------------------------------------------------------------
  // goInputs

  /** A `bindata.InputConfig`: a path and whether its directory is walked recursively. */
  datatype InputConfig = InputConfig(path: string, recursive: bool)

  /** The toolchain artifacts `go build` needs, which the command bundles. */
  function GoInputs(goroot: string, gotooldir: string): (r: seq<InputConfig>)
    ensures |r| == 6
    ensures forall i :: 0 <= i < |r| ==> (r[i].recursive <==> i < 2)
  {
    [ InputConfig(PathJoin([goroot, "src"]), true),
      InputConfig(PathJoin([goroot, "pkg", "include"]), true),
      InputConfig(PathJoin([gotooldir, "asm"]), false),
      InputConfig(PathJoin([gotooldir, "compile"]), false),
      InputConfig(PathJoin([gotooldir, "link"]), false),
      InputConfig(PathJoin([goroot, "bin", "go"]), false) ]
  }

  /**
    With both roots known, the inputs are, in order: the standard
    library sources, the runtime headers, the assembler, the compiler,
    the linker and the `go` binary itself.
   */
  lemma GoInputsPaths(goroot: string, gotooldir: string)
    requires goroot != "" && gotooldir != ""
    ensures var r := GoInputs(goroot, gotooldir);
      && r[0].path == goroot + "/src"
      && r[1].path == goroot + "/pkg/include"
      && r[2].path == gotooldir + "/asm"
      && r[3].path == gotooldir + "/compile"
      && r[4].path == gotooldir + "/link"
      && r[5].path == goroot + "/bin/go"
  {
    PathJoin2(goroot, "src");
    PathJoin3(goroot, "pkg", "include");
    assert goroot + "/" + "pkg" + "/" + "include" == goroot + ("/" + "pkg" + "/" + "include");
    assert "/" + "pkg" + "/" + "include" == "/pkg/include";
    PathJoin2(gotooldir, "asm");
    PathJoin2(gotooldir, "compile");
    PathJoin2(gotooldir, "link");
    PathJoin3(goroot, "bin", "go");
    assert goroot + "/" + "bin" + "/" + "go" == goroot + ("/" + "bin" + "/" + "go");
    assert "/" + "bin" + "/" + "go" == "/bin/go";
  }
}
