/** The TypeScript task runner of the script project type: it builds a script
    to WebAssembly through npm, reports whether dependencies are installed,
    installs them behind a Node.js version gate, and reads the metadata the
    build generates.

    The runner's context (the working directory, its files and the process
    launcher) is the object's state: a map from project-relative paths to
    contents, the set of directories, and the log of commands launched.
    Launching a command is a scripted function from the command to its
    combined output and success flag; JSON decoding is a function from file
    contents to a decoded document, or to nothing when the text is malformed. */
module Languages {

  import opened Optional
  import opened Json
  import NodeVersion
  import ScriptMetadata

  newtype uint8 = x: int | 0 <= x < 256

  type Bytes = seq<uint8>

  /** A path relative to the script's working directory. */
  type Path = string

  /** The arguments of one launch, as given to the context's capture2e. */
  type Command = seq<string>

  const PackageJson: Path := "package.json"
  const Bytecode: Path := "build/index.wasm"
  const MetadataFile: Path := "build/metadata.json"
  const NodeModules: Path := "node_modules"

  const SdkBuild: Command := ["npm run build"]
  const GenMetadata: Command := ["npm run gen-metadata"]
  const NodeVersionQuery: Command := ["node", "--version"]
  const NpmInstall: Command := ["npm install --no-audit --no-optional --legacy-peer-deps --loglevel error"]

  /** What a launched command reports: its combined stdout and stderr, and
      whether it exited successfully. */
  datatype Reply = Reply(output: string, success: bool)

  /** The collaborators the runner calls but does not implement. */
  datatype Env = Env(exec: Command -> Reply, decode: Bytes -> Option<Json>)

  /** Why installing dependencies failed. */
  datatype InstallCause =
    | NodeVersionCheckFailed(output: string)
    | NodeBelowMinimum(found: NodeVersion.Version, minimum: NodeVersion.Version)
    | NpmInstallFailed(output: string)

  datatype Error =
    | BuildScriptNotFound
    | InvalidBuildScript
    | SystemCallFailure(cmd: Command, out: string)
    | WebAssemblyBinaryNotFound
    | DependencyInstall(cause: InstallCause)
    | MetadataNotFound(path: Path)
    | NoSuchFile(path: Path)
    | ParseError(path: Path)
    | UnreadableNodeVersion(output: string)
    | InvalidMetadata(path: Path)

  datatype Result<T> = Ok(value: T) | Err(error: Error)

  datatype Outcome = Pass | Fail(error: Error)

  /** Characters a blank build script may consist of. */
  predicate IsBlank(s: string)
  {
    forall i :: 0 <= i < |s| ==> s[i] == ' ' || s[i] == '\t' || s[i] == '\n' || s[i] == '\r'
  }

  /** `scripts.build` of the manifest; missing when either key is absent or
      the entry is JSON null. */
  function BuildScriptEntry(manifest: Json): (entry: Option<Json>)
    ensures entry.Some? ==> entry.value != Null
    ensures entry.Some? <==>
      HasField(manifest, "scripts") && HasField(manifest.fields["scripts"], "build") &&
      manifest.fields["scripts"].fields["build"] != Null
  {
    if HasField(manifest, "scripts") && HasField(manifest.fields["scripts"], "build")
       && manifest.fields["scripts"].fields["build"] != Null
    then Some(manifest.fields["scripts"].fields["build"])
    else None
  }

  /** The build-script gate: the manifest must declare a `build` script, and
      that script must be a non-blank string. */
  function CheckBuildScript(manifest: Json): (r: Outcome)
    ensures r == Fail(BuildScriptNotFound) <==> BuildScriptEntry(manifest).None?
    ensures r == Pass <==>
      BuildScriptEntry(manifest).Some? && BuildScriptEntry(manifest).value.String? &&
      !IsBlank(BuildScriptEntry(manifest).value.s)
    ensures r.Pass? || r == Fail(BuildScriptNotFound) || r == Fail(InvalidBuildScript)
  {
    match BuildScriptEntry(manifest)
    case None => Fail(BuildScriptNotFound)
    case Some(String(script)) => if IsBlank(script) then Fail(InvalidBuildScript) else Pass
    case Some(_) => Fail(InvalidBuildScript)
  }

  /** A manifest whose `scripts` object maps each name to its command. */
  function ManifestWith(scripts: map<string, string>): Json
  {
    Object(map["scripts" := Object(map name | name in scripts :: String(scripts[name]))])
  }

  /** The gate on a manifest written from a scripts map: missing `build` is
      BuildScriptNotFound, a blank one InvalidBuildScript, anything else passes. */
  lemma CheckBuildScriptOfScripts(scripts: map<string, string>)
    ensures CheckBuildScript(ManifestWith(scripts)) ==
      if "build" !in scripts then Fail(BuildScriptNotFound)
      else if IsBlank(scripts["build"]) then Fail(InvalidBuildScript)
      else Pass
  {
  }

  /** Reading `package.json` and applying the gate to it. */
  function CheckManifest(env: Env, files: map<Path, Bytes>): (r: Outcome)
    ensures PackageJson !in files ==> r == Fail(NoSuchFile(PackageJson))
    ensures PackageJson in files && env.decode(files[PackageJson]).None? ==> r == Fail(ParseError(PackageJson))
    ensures PackageJson in files && env.decode(files[PackageJson]).Some? ==>
      r == CheckBuildScript(env.decode(files[PackageJson]).value)
  {
    if PackageJson !in files then Fail(NoSuchFile(PackageJson))
    else match env.decode(files[PackageJson])
      case None => Fail(ParseError(PackageJson))
      case Some(manifest) => CheckBuildScript(manifest)
  }

  /** The commands a build launches once its manifest has passed: the
      compiler, then, only if that succeeded, the metadata generator. */
  function BuildCommands(env: Env): (cmds: seq<Command>)
    ensures |cmds| > 0 && cmds[0] == SdkBuild
    ensures GenMetadata in cmds <==> env.exec(SdkBuild).success
  {
    if env.exec(SdkBuild).success then [SdkBuild, GenMetadata] else [SdkBuild]
  }

  class TypeScriptTaskRunner {
    /** The context's process launcher and the JSON decoder. */
    const env: Env
    /** The script this runner builds; none of the four operations use it. */
    const scriptName: string
    var files: map<Path, Bytes>
    var dirs: set<Path>
    /** Every command launched so far, oldest first. */
    var log: seq<Command>

    constructor (env: Env, scriptName: string, files: map<Path, Bytes>, dirs: set<Path>)
      ensures this.env == env && this.scriptName == scriptName
      ensures this.files == files && this.dirs == dirs && log == []
    {
      this.env := env;
      this.scriptName := scriptName;
      this.files := files;
      this.dirs := dirs;
      log := [];
    }

    /** The context's capture2e: launch `cmd` and record it. */
    method Capture(cmd: Command) returns (reply: Reply)
      modifies this`log
      ensures reply == env.exec(cmd) && log == old(log) + [cmd]
    {
      reply := env.exec(cmd);
      log := log + [cmd];
    }

    /** Compiles the script and hands back its WebAssembly, removing the file. */
    method Build() returns (r: Result<Bytes>)
      modifies this`files, this`log
      ensures CheckManifest(env, old(files)).Fail? ==>
        r == Err(CheckManifest(env, old(files)).error) && log == old(log) && files == old(files)
      ensures CheckManifest(env, old(files)).Pass? ==> log == old(log) + BuildCommands(env)
      ensures CheckManifest(env, old(files)).Pass? && !env.exec(SdkBuild).success ==>
        r == Err(SystemCallFailure(SdkBuild, env.exec(SdkBuild).output)) && files == old(files)
      ensures CheckManifest(env, old(files)).Pass? && env.exec(SdkBuild).success &&
              !env.exec(GenMetadata).success ==>
        r == Err(SystemCallFailure(GenMetadata, env.exec(GenMetadata).output)) && files == old(files)
      ensures CheckManifest(env, old(files)).Pass? && env.exec(SdkBuild).success &&
              env.exec(GenMetadata).success && Bytecode !in old(files) ==>
        r == Err(WebAssemblyBinaryNotFound) && files == old(files)
      ensures r.Ok? <==>
        CheckManifest(env, old(files)).Pass? && env.exec(SdkBuild).success &&
        env.exec(GenMetadata).success && Bytecode in old(files)
      ensures r.Ok? ==>
        r.value == old(files)[Bytecode] && files == old(files) - {Bytecode}
    {
      var checked := CheckManifest(env, files);
      if checked.Fail? {
        return Err(checked.error);
      }
      var reply := Capture(SdkBuild);
      if !reply.success {
        return Err(SystemCallFailure(SdkBuild, reply.output));
      }
      reply := Capture(GenMetadata);
      if !reply.success {
        return Err(SystemCallFailure(GenMetadata, reply.output));
      }
      if Bytecode !in files {
        return Err(WebAssemblyBinaryNotFound);
      }
      var contents := files[Bytecode];
      files := files - {Bytecode};
      return Ok(contents);
    }

    /** Whether `node_modules` exists; its contents are not looked at. */
    method DependenciesInstalled() returns (installed: bool)
      ensures installed <==> NodeModules in dirs
    {
      installed := NodeModules in dirs;
    }

    /** Checks the Node.js version, then runs `npm install`. */
    method InstallDependencies() returns (r: Outcome)
      modifies this`log
      ensures !env.exec(NodeVersionQuery).success ==>
        r == Fail(DependencyInstall(NodeVersionCheckFailed(env.exec(NodeVersionQuery).output))) &&
        log == old(log) + [NodeVersionQuery]
      ensures env.exec(NodeVersionQuery).success && NodeVersion.Parse(env.exec(NodeVersionQuery).output).None? ==>
        r == Fail(UnreadableNodeVersion(env.exec(NodeVersionQuery).output)) &&
        log == old(log) + [NodeVersionQuery]
      ensures env.exec(NodeVersionQuery).success && NodeVersion.Parse(env.exec(NodeVersionQuery).output).Some? &&
              !NodeVersion.MeetsMinimum(NodeVersion.Parse(env.exec(NodeVersionQuery).output).value) ==>
        r == Fail(DependencyInstall(NodeBelowMinimum(
               NodeVersion.Parse(env.exec(NodeVersionQuery).output).value, NodeVersion.Minimum))) &&
        log == old(log) + [NodeVersionQuery]
      ensures env.exec(NodeVersionQuery).success && NodeVersion.Parse(env.exec(NodeVersionQuery).output).Some? &&
              NodeVersion.MeetsMinimum(NodeVersion.Parse(env.exec(NodeVersionQuery).output).value) ==>
        log == old(log) + [NodeVersionQuery, NpmInstall] &&
        r == if env.exec(NpmInstall).success then Pass
             else Fail(DependencyInstall(NpmInstallFailed(env.exec(NpmInstall).output)))
      ensures files == old(files) && dirs == old(dirs)
    {
      var reply := Capture(NodeVersionQuery);
      if !reply.success {
        return Fail(DependencyInstall(NodeVersionCheckFailed(reply.output)));
      }
      var version := NodeVersion.Parse(reply.output);
      if version.None? {
        return Fail(UnreadableNodeVersion(reply.output));
      }
      if !NodeVersion.MeetsMinimum(version.value) {
        return Fail(DependencyInstall(NodeBelowMinimum(version.value, NodeVersion.Minimum)));
      }
      reply := Capture(NpmInstall);
      if !reply.success {
        return Fail(DependencyInstall(NpmInstallFailed(reply.output)));
      }
      return Pass;
    }

    /** Reads the descriptor the metadata generator wrote. */
    method Metadata() returns (r: Result<ScriptMetadata.Metadata>)
      ensures r == Err(MetadataNotFound(MetadataFile)) <==> MetadataFile !in files
      ensures MetadataFile in files && env.decode(files[MetadataFile]).None? ==>
        r == Err(ParseError(MetadataFile))
      ensures MetadataFile in files && env.decode(files[MetadataFile]).Some? ==>
        (r.Ok? <==> ScriptMetadata.FromJson(env.decode(files[MetadataFile]).value).Some?)
      ensures MetadataFile in files && env.decode(files[MetadataFile]).Some? &&
              ScriptMetadata.FromJson(env.decode(files[MetadataFile]).value).None? ==>
        r == Err(InvalidMetadata(MetadataFile))
      ensures r.Ok? ==>
        MetadataFile in files && env.decode(files[MetadataFile]).Some? &&
        ScriptMetadata.FromJson(env.decode(files[MetadataFile]).value) == Some(r.value)
    {
      if MetadataFile !in files {
        return Err(MetadataNotFound(MetadataFile));
      }
      var doc := env.decode(files[MetadataFile]);
      if doc.None? {
        return Err(ParseError(MetadataFile));
      }
      var metadata := ScriptMetadata.FromJson(doc.value);
      if metadata.None? {
        return Err(InvalidMetadata(MetadataFile));
      }
      return Ok(metadata.value);
    }
  }
}
