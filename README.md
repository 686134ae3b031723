# TypeScript task runner of the script project type

This project models the TypeScript task runner
(`Script::Layers::Infrastructure::Languages::TypeScriptTaskRunner`) of the
Shopify CLI's script project type, and proves its properties in Dafny. The
runner has four operations:

- **build** checks that `package.json` declares a non-blank `build` script.
  It then runs `npm run build` and `npm run gen-metadata`, and requires
  `build/index.wasm` to exist. It reads that file, deletes it and returns its
  bytes.
- **dependencies_installed?** says whether `node_modules` exists.
- **install_dependencies** runs `node --version` and parses `vMAJOR.MINOR.PATCH`.
  It rejects any version below 14.15, comparing each component as a number.
  Otherwise it runs
  `npm install --no-audit --no-optional --legacy-peer-deps --loglevel error`.
- **metadata** requires `build/metadata.json` to exist. It decodes the file
  and returns its `schemaVersions` map, from each schema name to a
  `(major, minor)` pair of strings.

The runner's implementation file is not part of this model. The behaviour
modelled is what the runner's test file asserts. Where the test is silent,
the model makes these choices:

- a blank `build` script (only whitespace) is rejected like an empty one;
- a missing `package.json` fails with `NoSuchFile`;
- malformed JSON fails with `ParseError`;
- output of `node --version` that does not parse fails with `UnreadableNodeVersion`;
- a metadata document without the expected shape fails with `InvalidMetadata`.

Files:

- `typescript_task_runner.dfy`, module `Languages`: the error taxonomy, the
  manifest gate, and the class `TypeScriptTaskRunner`. The class's state is the
  runner's context: a map from project-relative paths to file contents, the
  set of directories, and the log of launched commands. Its methods change
  that state step by step, as the runner does.
- `node_version.dfy`, module `NodeVersion`: parsing and printing Node.js
  versions, and the minimum-version gate.
- `script_metadata.dfy`, module `ScriptMetadata`: the metadata descriptor, and
  how it is read from a decoded document.
- `json.dfy` and `optional.dfy`: the decoded-JSON shape and an option type.
- `typescript_task_runner_scenarios.dfy`: each test case as a client method. It
  sets up the files and scripted commands the test uses, calls the operation,
  and asserts what the test asserts. It uses only the contracts.

Launching a command is an injected function, `Env.exec`, from the argument
list given to `capture2e` to a reply: the combined output and a success flag.
Decoding JSON is an injected function, `Env.decode`, from file contents to a
document, or to nothing when the text is malformed.

## Model

| member | source | states |
|---|---|---|
| `Languages.TypeScriptTaskRunner.Build` | test/project_types/script/layers/infrastructure/languages/typescript_task_runner_test.rb:19-95 | A failing manifest gate returns its error before any command runs, and nothing changes. Otherwise `npm run build` runs once, and `npm run gen-metadata` runs once after it only if the build succeeded. A failed command returns SystemCallFailure carrying that command and its output verbatim, and no file is read or removed. If both succeed and `build/index.wasm` is absent, the result is WebAssemblyBinaryNotFound. The result is Ok exactly when all steps pass. Ok carries the file's old bytes, and the new file map is the old one without that file. |
| `Languages.TypeScriptTaskRunner.DependenciesInstalled` | test/project_types/script/layers/infrastructure/languages/typescript_task_runner_test.rb:97-112 | Returns true iff `node_modules` is a directory. It modifies nothing. |
| `Languages.TypeScriptTaskRunner.InstallDependencies` | test/project_types/script/layers/infrastructure/languages/typescript_task_runner_test.rb:114-150 | `node --version` runs first. If it fails, the result is DependencyInstall carrying its output. If the printed version is below 14.15, the result is DependencyInstall naming the version found and the minimum, and npm install is not run. Otherwise npm install runs once, and its failure is DependencyInstall carrying its output. Files and directories are unchanged. |
| `Languages.TypeScriptTaskRunner.Metadata` | test/project_types/script/layers/infrastructure/languages/typescript_task_runner_test.rb:152-186 | Returns MetadataNotFound iff `build/metadata.json` is absent. Undecodable contents give ParseError. A decoded document without the descriptor's shape gives InvalidMetadata. Ok is returned iff the decoded document has that shape, and it carries the descriptor the document stands for. It modifies nothing. |
| `Languages.TypeScriptTaskRunner.Capture` | test/project_types/script/layers/infrastructure/languages/typescript_task_runner_test.rb:39-49 | Launching a command returns the scripted reply for it and appends it to the command log. |
| `Languages.TypeScriptTaskRunner.constructor` | test/project_types/script/layers/infrastructure/languages/typescript_task_runner_test.rb:7-10 | A runner starts on the given context and script name, with nothing launched yet. |
| `Languages.CheckManifest` | test/project_types/script/layers/infrastructure/languages/typescript_task_runner_test.rb:22-35 | A missing `package.json` gives NoSuchFile. Undecodable contents give ParseError. Otherwise the result is the build-script gate applied to the decoded manifest. |
| `Languages.CheckBuildScript` | test/project_types/script/layers/infrastructure/languages/typescript_task_runner_test.rb:22-35 | BuildScriptNotFound iff `scripts.build` is missing. Pass iff it is a non-blank string. Every other manifest gives InvalidBuildScript. |
| `Languages.BuildScriptEntry` | test/project_types/script/layers/infrastructure/languages/typescript_task_runner_test.rb:22-27 | `scripts.build` is present iff both keys exist and the entry is not null. A document without `scripts` has none. |
| `Languages.CheckBuildScriptOfScripts` | test/project_types/script/layers/infrastructure/languages/typescript_task_runner_test.rb:11-35 | For a manifest written from a scripts map, the gate gives BuildScriptNotFound without `build`, InvalidBuildScript for a blank one, and Pass otherwise. |
| `Languages.BuildCommands` | test/project_types/script/layers/infrastructure/languages/typescript_task_runner_test.rb:37-52 | A build launches `npm run build` first. `npm run gen-metadata` is among its launches iff the build command succeeded. |
| `NodeVersion.Decimal` | test/project_types/script/layers/infrastructure/languages/typescript_task_runner_test.rb:117-139 | A version component prints as a non-empty string of digits with no dot and no line break. |
| `NodeVersion.DecimalRoundTrip` | test/project_types/script/layers/infrastructure/languages/typescript_task_runner_test.rb:117-139 | Reading back a printed component gives the number printed. |
| `NodeVersion.ParseRender` | test/project_types/script/layers/infrastructure/languages/typescript_task_runner_test.rb:117-139 | Parsing what `node --version` prints for a version gives that version, with or without a trailing line break. |
| `NodeVersion.MeetsMinimumIsOrder` | test/project_types/script/layers/infrastructure/languages/typescript_task_runner_test.rb:117-139 | The (major, minor) gate accepts a version iff it is at least 14.15.0 in semantic-version order. |
| `NodeVersion.AtMostIsTotalOrder` | test/project_types/script/layers/infrastructure/languages/typescript_task_runner_test.rb:117-139 | The version order is reflexive, total, antisymmetric and transitive. |
| `NodeVersion.MeetsMinimumUpwardClosed` | test/project_types/script/layers/infrastructure/languages/typescript_task_runner_test.rb:117-139 | Any version at least as new as an accepted one is accepted. |
| `NodeVersion.TestVersions` | test/project_types/script/layers/infrastructure/languages/typescript_task_runner_test.rb:117-139 | "v14.15.0" parses to 14.15.0 and passes the gate. "v14.4.0" parses to 14.4.0 and fails it. |
| `NodeVersion.LexicalOrderMisjudges` | test/project_types/script/layers/infrastructure/languages/typescript_task_runner_test.rb:129-139 | As strings, "v14.15.0" sorts below "v14.4.0", so a string comparison would admit 14.4.0. The numeric gate rejects it. |
| `ScriptMetadata.SchemaVersionOf` | test/project_types/script/layers/infrastructure/languages/typescript_task_runner_test.rb:159-161 | An entry is read iff it is an object with string `major` and `minor`, and it carries exactly those strings. |
| `ScriptMetadata.FromJson` | test/project_types/script/layers/infrastructure/languages/typescript_task_runner_test.rb:155-176 | A document is read iff `schemaVersions` is an object whose every entry is well formed. The descriptor has exactly that object's schema names. |
| `ScriptMetadata.FromJsonToJson` | test/project_types/script/layers/infrastructure/languages/typescript_task_runner_test.rb:155-176 | Every descriptor is read back unchanged from the document that describes it. |
| `ScriptMetadata.ExampleDocument` | test/project_types/script/layers/infrastructure/languages/typescript_task_runner_test.rb:156-176 | The test's document gives the descriptor `example -> (major "1", minor "0")`. |

## Left out

- Process spawning (`capture2e`) and the real `npm`, `node` and `javy` tools are not modelled. A command is a scripted function from its argument list to its output and success flag, so the same command always gives the same reply.
- Launched commands have no effect on the file map. The model does not show `npm run build` writing `build/index.wasm`, or `npm install` creating `node_modules`. As in the tests, the artifact must exist before `build` is called.
- JSON decoding (RFC 8259) is an injected function. A malformed document is one opaque outcome, ParseError.
- Error messages are not modelled. Errors carry the captured output or the failing path, and a too-old Node.js error carries the version found and the minimum.
- The test's `nil` output from npm install is modelled as a string.
- Version strings with pre-release or build suffixes (`v15.0.0-rc.1`) are rejected as unreadable. Leading zeros in a component are accepted.
- Races between runs in the same working directory, and hung subprocesses, are not modelled.
- The contents of the WebAssembly binary are opaque bytes.
- The script name is kept on the runner, but none of the four operations uses it.
- The test scaffolding is replaced by scenario methods and contracts, not modelled as such. That covers the fake file system, the fake context, and mocha expectations.
