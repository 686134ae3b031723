/** The runner's test cases replayed against its contracts: each method sets up
    the working directory and the scripted commands a test uses, calls one
    operation and asserts what the test asserts. */
module TypeScriptTaskRunnerScenarios {

  import opened Optional
  import opened Json
  import opened Languages
  import NodeVersion
  import ScriptMetadata

  const JavyBuild := "javy build/index.js -o build/index.wasm"

  /** Some bytes standing for the compiled script. */
  const Wasm: Bytes := [115, 111, 109, 101, 32, 99, 111, 100, 101]

  /** Any contents; the scripted decoder decides what they decode to. */
  const Text: Bytes := [123, 125]

  function Decoding(doc: Json): Bytes -> Option<Json>
  {
    (b: Bytes) => Some(doc)
  }

  /** Every command prints `output` and reports `success`. */
  function Always(output: string, success: bool): Command -> Reply
  {
    (cmd: Command) => Reply(output, success)
  }

  method BuildWithoutScriptsSection()
  {
    var doc := Object(map["build" := String(JavyBuild)]);
    var runner := new TypeScriptTaskRunner(Env(Always("output", true), Decoding(doc)), "foo",
                             map[PackageJson := Text, Bytecode := Wasm], {});
    var r := runner.Build();
    assert r == Err(BuildScriptNotFound);
    assert runner.log == [];
  }

  method BuildWithEmptyScript()
  {
    var doc := ManifestWith(map["build" := ""]);
    var runner := new TypeScriptTaskRunner(Env(Always("output", true), Decoding(doc)), "foo",
                             map[PackageJson := Text, Bytecode := Wasm], {});
    var r := runner.Build();
    CheckBuildScriptOfScripts(map["build" := ""]);
    assert r == Err(InvalidBuildScript);
    assert runner.log == [];
  }

  method BuildWithoutBytecode()
  {
    var doc := ManifestWith(map["build" := JavyBuild]);
    var runner := new TypeScriptTaskRunner(Env(Always("output", true), Decoding(doc)), "foo",
                             map[PackageJson := Text], {});
    CheckBuildScriptOfScripts(map["build" := JavyBuild]);
    assert !IsBlank(JavyBuild) by { assert JavyBuild[0] == 'j'; }
    var r := runner.Build();
    assert r == Err(WebAssemblyBinaryNotFound);
    assert runner.log == [SdkBuild, GenMetadata];
  }

  method BuildReturnsBytecode()
  {
    var doc := ManifestWith(map["build" := JavyBuild]);
    var runner := new TypeScriptTaskRunner(Env(Always("output", true), Decoding(doc)), "foo",
                             map[PackageJson := Text, Bytecode := Wasm], {"build"});
    CheckBuildScriptOfScripts(map["build" := JavyBuild]);
    assert !IsBlank(JavyBuild) by { assert JavyBuild[0] == 'j'; }
    assert Bytecode in runner.files;
    var r := runner.Build();
    assert r == Ok(Wasm);
    assert Bytecode !in runner.files;
    assert runner.files == map[PackageJson := Text];
    assert runner.log == [SdkBuild, GenMetadata];
  }

  method BuildWhenCommandFails()
  {
    var doc := ManifestWith(map["build" := JavyBuild]);
    var files := map[PackageJson := Text, Bytecode := Wasm];
    var runner := new TypeScriptTaskRunner(Env(Always("error_output", false), Decoding(doc)), "foo", files, {});
    CheckBuildScriptOfScripts(map["build" := JavyBuild]);
    assert !IsBlank(JavyBuild) by { assert JavyBuild[0] == 'j'; }
    var r := runner.Build();
    assert r == Err(SystemCallFailure(SdkBuild, "error_output"));
    assert runner.log == [SdkBuild];
    assert runner.files == files;
  }

  method DependenciesInstalledFollowsNodeModules()
  {
    var present := new TypeScriptTaskRunner(Env(Always("", true), Decoding(Null)), "foo", map[], {NodeModules});
    var yes := present.DependenciesInstalled();
    assert yes;
    var absent := new TypeScriptTaskRunner(Env(Always("", true), Decoding(Null)), "foo", map[], {});
    var no := absent.DependenciesInstalled();
    assert !no;
  }

  /** `node --version` prints `version`; every other command succeeds silently. */
  function NodePrints(version: string): Command -> Reply
  {
    (cmd: Command) => if cmd == NodeVersionQuery then Reply(version, true) else Reply("", true)
  }

  method InstallOnSupportedNode()
  {
    var runner := new TypeScriptTaskRunner(Env(NodePrints("v14.15.0"), Decoding(Null)), "foo", map[], {});
    NodeVersion.TestVersions();
    var r := runner.InstallDependencies();
    assert r == Pass;
    assert runner.log == [NodeVersionQuery, NpmInstall];
  }

  method InstallOnOldNode()
  {
    var runner := new TypeScriptTaskRunner(Env(NodePrints("v14.4.0"), Decoding(Null)), "foo", map[], {});
    NodeVersion.TestVersions();
    var r := runner.InstallDependencies();
    assert r == Fail(DependencyInstall(NodeBelowMinimum(NodeVersion.Version(14, 4, 0), NodeVersion.Minimum)));
    assert runner.log == [NodeVersionQuery];
    assert NpmInstall !in runner.log;
  }

  method InstallWhenLaunchFails()
  {
    var runner := new TypeScriptTaskRunner(Env(Always("error message", false), Decoding(Null)), "foo", map[], {});
    var r := runner.InstallDependencies();
    assert r == Fail(DependencyInstall(NodeVersionCheckFailed("error message")));
    assert runner.log == [NodeVersionQuery];
  }

  method MetadataPresent()
  {
    var doc := Object(map["schemaVersions" := Object(map["example" :=
                 Object(map["major" := String("1"), "minor" := String("0")])])]);
    var runner := new TypeScriptTaskRunner(Env(Always("", true), Decoding(doc)), "foo", map[MetadataFile := Text], {});
    ScriptMetadata.ExampleDocument();
    var r := runner.Metadata();
    assert r == Ok(ScriptMetadata.Metadata(map["example" := ScriptMetadata.SchemaVersion("1", "0")]));
  }

  method MetadataOfWrongShape()
  {
    var doc := Object(map["schemaVersions" := String("1.0")]);
    var runner := new TypeScriptTaskRunner(Env(Always("", true), Decoding(doc)), "foo", map[MetadataFile := Text], {});
    var r := runner.Metadata();
    assert r == Err(InvalidMetadata(MetadataFile));
  }

  method MetadataMissing()
  {
    var runner := new TypeScriptTaskRunner(Env(Always("", true), Decoding(Null)), "foo", map[], {});
    var r := runner.Metadata();
    assert r == Err(MetadataNotFound(MetadataFile));
  }
}
