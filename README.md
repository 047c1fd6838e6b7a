# CMakeBuilder: File API reply to Sublime build systems

This project models the core of CMakeBuilder, a Sublime Text plugin that
configures CMake projects.

**What the plugin does.** After `cmake` has configured a build folder, the
plugin reads the CMake File API reply in that folder. It picks the current
`index-*.json`, walks the codemodel's configurations and targets, and turns
each configuration into a Sublime build system. Each build system gets:

- one build variant per target;
- a run variant, and on linux or osx a debug variant, for an executable whose
  artifact can be identified;
- a final `ctest` variant.

The generated build systems are merged into the window's project data. The
merge replaces the plugin's earlier output and keeps every build system the
user wrote.

**Smaller pieces modelled.**

- The configure command line and its override and toolset arguments.
- The parser for the environment printed after `vcvarsall.bat`.
- The CMake-to-Visual-Studio architecture names.
- The Visual Studio major version named by a generator.
- Platform-aware settings lookup.
- The generator lookup that picks the build panel's syntax and diagnostic pattern.
- The File API paths.
- The diagnosis sheet's HTML.
- Two legacy generators:
  - Ninja: filters the targets out of `cmake --build . --target help` output;
  - Visual Studio: names `.vcxproj` projects and builds their commands.

**How the model is written.**

- Pure helpers become functions.
- Code that builds a list or dictionary in a loop becomes a method proved
  equal to a specification function, then properties are proved about that
  function. Such code includes `__convert_overrides_to_list`, the
  `parse_vcvarsall` loop, `tabulate`, and the Ninja and Visual Studio
  `variants` loops.
- The configure command keeps its state in a class. `ConfigureCommand`
  holds `info`, `buildSystems` and `error`; its methods update those fields
  the way `__handle_response_codemodel` and `__handle_target` do.
- Parsed JSON documents are Dafny datatypes. A key the code subscripts is an
  `Option`; when it is missing, the result is the `KeyError` the code would
  raise.
- Inputs from the outside world become parameters:
  - the platform;
  - directory listings and walks;
  - the reply files;
  - process output.

| file | module |
|---|---|
| wrappers.dfy | `Wrappers`: `Option`, `Result`, the Python exceptions raised on the modelled paths |
| strings.dfy | `Strings`: the string operations the code uses (prefix/suffix tests, `strip`, `split`, `rpartition`, `find`, `join`, ordering) |
| json.dfy | `Json`: JSON values of project data and settings |
| settings.dfy | `Settings`: `get_setting_value`, `get_setting` |
| file_api.dfy | `FileApi`: `file_api*`, `get_index_file` |
| generators.dfy | `Generators`: `make_generator`, the `Generator` classes, the build command |
| cmake_info.dfy | `CmakeInfo`: `to_command` and its converters |
| vs_env.dfy | `VsEnv`: `parse_vcvarsall`, `cmake_arch_to_vs_arch`, `get_vs_major_version_from_generator_str` |
| codemodel.dfy | `Codemodel`: reply documents, variants, build systems, the translation as functions |
| configure.dfy | `Configure`: the `ConfigureCommand` class and the project-data merge |
| diagnosis.dfy | `Diagnosis`: `Diag`, `tabulate` |
| ninja.dfy | `NinjaTargets`: generators/osx/Ninja.py |
| visual_studio.dfy | `VisualStudio`: generators/windows/Visual_Studio.py |

**Behaviour of the code worth knowing.**

- **Artifact match.** `str.endswith` is a plain suffix test, so
  `build/foo.exe.dSYM/foo.exe` also matches `nameOnDisk = "foo.exe"`. A target
  listing both that path and `build/foo.exe` therefore has two matches and
  gets no run variant. `Codemodel.DebugBundleHidesRun` states this case.
- **Missing keys.** A reply key the code subscripts may be missing; the code
  then raises `KeyError`. The translation records that error, and no project
  data is written.

## Model

| member | source | states |
|---|---|---|
| FileApi.FileApiLayout | plugin.py:253-262 | The File API tree is `<build>/.cmake/api/v1`. The query directory `query/client-sublimetext` and the `reply` directory both sit directly under it. |
| FileApi.IndexFileNames | plugin.py:279-285 | A listed name is a candidate exactly when it matches `index-*.json`. |
| FileApi.GetIndexFile | plugin.py:279-285 | Fails with `IndexError` exactly when no listed name matches `index-*.json`. Otherwise the result is the reply path of a matching name, and no other matching path sorts after it. |
| FileApi.IndexFileHasGreatestName | plugin.py:279-285 | The chosen index file's own name is the lexicographically greatest of the matching names. |
| FileApi.IndexFileOrderIndependent | plugin.py:279-285 | The choice depends only on which names are present, not on listing order or repetition. |
| Settings.GetSettingValue | plugin.py:293-305 | A key in the current platform's section wins over the top-level key, which wins over the default. A platform entry that is not a dictionary raises `TypeError`. |
| Settings.ViewSettingOverridesPackage | plugin.py:308-318 | Whatever the view's `CMakeBuilder` settings answer, from their platform section or their top level: a non-null answer is the result, whatever the package settings hold, and a `TypeError` reading them is the result too. |
| Settings.ViewWithoutKeyDefersToPackage | plugin.py:308-318 | When the view's settings answer null, the result is the package settings' answer, exactly as without a view. They answer null when neither their platform section nor their top level has a non-null value for the key. |
| Generators.Subscript | plugin.py:241 | Subscripting a JSON value by a key succeeds exactly for a dictionary holding the key. A missing key raises `KeyError(key)`, and a non-dictionary raises `TypeError`. |
| Generators.ReplyGeneratorName | plugin.py:240-241 | The generator name read from the reply is `cmake.generator.name` when every level is present. An error loading the reply propagates unchanged. |
| Generators.GeneratorNamed | plugin.py:242-250 | Each of the four generator kinds is returned exactly for its name, or for a name starting with "Visual Studio". Any other name fails with `KeyError("unknown generator")`. |
| Generators.MakeGeneratorAsWrittenIgnoresReply | plugin.py:239-250 | As written, a missing name never yields a generator. The result is the reply's error when the reply cannot be read, and `KeyError("unknown generator")` otherwise, even for a reply naming "Ninja". |
| Generators.MakeGeneratorReadsReply | plugin.py:239-250 | In the corrected `make_generator`, a given name goes through the name chain. A missing one is read from the reply, whose errors propagate, and then chooses exactly as the same name given directly. A reply name that is not a string fails on `startswith`. |
| Generators.Regex | plugin.py:188-236 | The diagnostic pattern is missing (`NotImplementedError`) exactly for NMake. |
| Generators.BuildCommandAvailability | plugin.py:340-362 | A build starts exactly when the resolved generator name (given, or read from the reply) is Ninja, Unix Makefiles or starts with Visual Studio. The command is `<cmake> --build . --config <config>`. It is followed by `--target <target>` exactly when a non-empty target is given, and otherwise has five elements. |
| CmakeInfo.ConvertOverridesToList | plugin.py:541-555 | The loop produces the override argument list of the overrides, in dictionary order. |
| CmakeInfo.OverrideArgsShape | plugin.py:541-555 | There are exactly two arguments per override: `-D`, then `key=value`. Booleans render as ON/OFF. Strings, integers and null render as `str` renders them. |
| CmakeInfo.ToolsetItems | plugin.py:537-539 | There is one `key=value` item per toolset entry, in order. |
| CmakeInfo.ToolsetRoundTrip | plugin.py:537-539 | The toolset argument starts with `-T`. Splitting the rest on commas gives back the items, provided no key or value contains a comma. |
| CmakeInfo.ToCommandShape | plugin.py:522-532 | The command begins with the binary, `.`, `-B` and the build folder. Then come `-G <generator>`, `-A <platform>` and the `-T` toolset argument, each only for a set value and each right after the previous ones. The override arguments come last, and the length counts all of these. |
| VsEnv.VcvarsallArgSplits | plugin.py:87-90 | For architecture names without '_', splitting the argument at '_' gives back the host alone when host and target agree, and the host then the target otherwise. |
| VsEnv.KeyValueOf | plugin.py:98-99 | Key, `=` and value reassemble the stripped line, and the key contains no `=`. |
| VsEnv.TrimSeparator | plugin.py:102-103 | Exactly one trailing path separator is removed, and only when one is present. |
| VsEnv.EnvLineEntry | plugin.py:96-104 | A line without `=` contributes nothing. A kept key is the lower-cased key and is one of include, lib, libpath, path. A line whose lower-cased key is kept yields that key and the value with one trailing separator removed, when present. |
| VsEnv.ParseVcvarsallOutput | plugin.py:94-105 | The loop produces the dictionary of the output's lines, folded in order. |
| VsEnv.ParseEnvLinesLastWins | plugin.py:94-105 | Only the four kept variables appear. A variable appears exactly when some line sets it, and its value comes from the last such line. |
| VsEnv.CmakeArchToVsArch | plugin.py:138-145 | x64 becomes amd64, while x86 and arm are kept. Any other architecture raises `ValueError`. |
| VsEnv.CmakeArchToVsArchInjective | plugin.py:138-145 | Distinct accepted architectures map to distinct names. |
| VsEnv.VsMajorVersionFromGeneratorStr | plugin.py:129-135 | A generator string other than "Ninja" with at most two words raises `RuntimeError`. Otherwise the result is its third word read as an integer. |
| VsEnv.VsMajorVersionOfGeneratorName | plugin.py:132-134 | Any "Visual Studio <n> ..." name yields major version n. |
| Codemodel.MatchingArtifactsFails | plugin.py:711-714 | The artifact filter fails with `KeyError("path")` exactly when some artifact has no path. |
| Codemodel.MatchingArtifactsMembers | plugin.py:713-714 | The kept paths are exactly those artifact paths ending with `nameOnDisk`. |
| Codemodel.MatchingArtifactsEmpty | plugin.py:713-715 | No path is kept exactly when no artifact path ends with `nameOnDisk`. |
| Codemodel.MatchingArtifactsSingle | plugin.py:713-720 | Exactly one path is kept exactly when exactly one artifact ends with `nameOnDisk`. |
| Codemodel.TargetVariantsSpec | plugin.py:705-739 | Failure happens exactly when a key the target's path reads is missing. Otherwise the build variant comes first. A non-executable gets nothing more. An executable gets a run variant iff exactly one artifact matches, and that variant carries the matching artifact. A debug variant with the platform's debugger follows it iff the platform is linux or osx. |
| Codemodel.DebugBundleHidesRun | plugin.py:713-720 | A `.dSYM` bundle's inner file also matches the suffix test, so such an executable gets only its build variant. |
| Codemodel.SingleArtifactRuns | plugin.py:709-739 | A single matching artifact gives build, run and, on linux or osx, debug variants. |
| Codemodel.LoadTargetDoc | plugin.py:697 | A target reference loads exactly when its `jsonFile` is present and names a reply file. |
| Codemodel.TargetsVariantsOrder | plugin.py:696-698 | The build variants name the targets in declared order. Each run variant sits right behind its build variant, and each debug variant right behind its run variant. No `ctest` variant occurs among them. |
| Codemodel.DisplayName | plugin.py:680-684 | The empty name becomes a non-empty one ("Default"), and any other name is kept. |
| Codemodel.BuildSystem.ToValue | plugin.py:685-693 | A generated build system's dictionary has `target` "cmake_build". |
| Codemodel.ConfigBuildSystemSpec | plugin.py:678-701 | A configuration yields a build system exactly when its `name` and `targets` are present and every target translates. Otherwise the result is `KeyError("name")`, `KeyError("targets")` or the first target's error, in that order. |
| Codemodel.ConfigBuildSystemContents | plugin.py:680-701 | `name` and `config` both equal the resolved configuration name. `working_dir`, `env` and `generator` come from the configure settings, with `generator` present exactly when set. The variants are exactly the targets' variants followed by one `ctest` variant. So the build targets are in declared order, and each run and debug variant sits behind its build. |
| Codemodel.TranslateConfigsSpec | plugin.py:677-703 | There is one build system per configuration, in order, up to the first failing configuration. No error is recorded exactly when all succeed; otherwise the error is that configuration's. |
| Configure.ConfigureCommand.HandleTarget | plugin.py:705-739 | Appending a target's variants to `variants` gives the target's variant list after the earlier ones, or the target's error. |
| Configure.ConfigureCommand.HandleConfiguration | plugin.py:680-701 | The inner loop over targets builds exactly the configuration's build system, or the first error. |
| Configure.ConfigureCommand.HandleResponseCodemodel | plugin.py:672-703 | The fields are reset, then `buildSystems` and `error` become the translation of the codemodel. A missing `configurations` key records `KeyError`. `info` is unchanged. |
| Configure.ConfigureCommand.WriteProjectData | plugin.py:741-757 | With a recorded error nothing is written and the error is reported. Otherwise the merged project data is written. |
| Configure.KeepForeignAppend | plugin.py:750-754 | The build-system filter works entry by entry: filtering a concatenation concatenates the filtered parts. |
| Configure.KeepForeignSingle | plugin.py:750-753 | One entry is kept if it is a foreign dictionary and dropped if it is ours. Anything that is not a dictionary fails (`AttributeError`). |
| Configure.KeepForeignMembers | plugin.py:750-753 | The filter succeeds exactly when every entry is a dictionary. It then keeps exactly the entries whose `target` is not "cmake_build", entries without `target` included. |
| Configure.KeepForeignOfKept | plugin.py:750-753 | Filtering an already filtered list changes nothing. |
| Configure.KeepForeignOfGenerated | plugin.py:750-754 | All generated build systems are recognised as ours. |
| Configure.MergeProjectDataSpec | plugin.py:748-754 | The merge fails only when the old build systems cannot be read. Otherwise only `build_systems` changes: the kept foreign entries in original order, then one entry per generated build system in order. |
| Configure.MergeProjectDataIdempotent | plugin.py:750-754 | Writing the same build systems twice gives the same project data as writing them once. |
| Diagnosis.Tabulate | plugin.py:984-989 | The loop produces the heading followed by each check's section, in order. |
| Diagnosis.ReportHasSection | plugin.py:984-989 | Every check's section appears in the sheet, between the sections of the checks before and after it. |
| Diagnosis.SectionShowsOutcome | plugin.py:863-895 | A section opens with the check's name. A failed check (empty value) shows its suggested action. A passing one shows its current value and the no-problem line. |
| NinjaTargets.TargetOf | generators/osx/Ninja.py:57 | The target is the text before the last ':' of the line, and empty when there is no ':'. |
| NinjaTargets.Variants | generators/osx/Ninja.py:33-72 | A non-empty error stream yields no list. Otherwise the loop yields the kept targets of the lines. |
| NinjaTargets.KeptTargetsSpec | generators/osx/Ninja.py:39-72 | The k-th target comes from the k-th line that contains no excluded text, in line order. Every such line contributes one target, and there are never more targets than lines. |
| NinjaTargets.ShellCmd | generators/osx/Ninja.py:16-17 | The command is "cmake --build . --target " followed by exactly the target. |
| VisualStudio.CommonPrefix | generators/windows/Visual_Studio.py:16-17 | The result is a prefix of both paths and cannot be extended. |
| VisualStudio.RelativeDir | generators/windows/Visual_Studio.py:17-20 | The relative directory has no backslashes left. |
| VisualStudio.RelativeDirBelow | generators/windows/Visual_Studio.py:16-20 | For a walked directory `<build>\<sub>`, the relative directory is `sub` with backslashes turned into '/'. The common prefix and one leading backslash are removed. The build folder itself gives the empty relative directory. |
| VisualStudio.TargetNameSpec | generators/windows/Visual_Studio.py:13-24 | The target ends with the file name less `.vcxproj`. It is exactly that name for a project in the build folder itself. Its directory part has forward slashes only. |
| VisualStudio.TargetNameBelow | generators/windows/Visual_Studio.py:13-24 | A project `stem.vcxproj` in the build folder's sub-directory `sub` has target `sub/stem`, with `sub`'s backslashes turned into '/', unless `sub` is a lone separator. In the build folder itself the target is `stem`. |
| VisualStudio.Variants | generators/windows/Visual_Studio.py:6-33 | The nested loops produce the variants of every `.vcxproj` outside `CMakeFiles` directories, in walk order. |
| VisualStudio.ConfigVariantsSpec | generators/windows/Visual_Studio.py:25-29 | There is one variant per configuration, in order, named "target [config]" and building with `--config config`. |
| VisualStudio.WalkVariantsCount | generators/windows/Visual_Studio.py:9-32 | The variant count is the number of project files outside `CMakeFiles` times the number of configurations, or one per project when there are none. |
| VisualStudio.ShellCmdAsWrittenFailsOnConfigNames | generators/windows/Visual_Studio.py:39-40 | Every variant name built with a configuration makes `shell_cmd` as written fail with `AttributeError`. |
| VisualStudio.ShellCmdOfVariantName | generators/windows/Visual_Studio.py:35-40 | The corrected `shell_cmd` of any variant's name is that variant's own command. For a name without '[' it is the plain build command. |

## Left out

- Process I/O: `check_output`, `subprocess.Popen`, `vswhere`, `capabilities`, and running `cmake`/`ctest`. Their outputs are parameters: the `set` output text of `vcvarsall.bat`, the Ninja help lines and error text, and the default Visual Studio generator name.
- The Sublime API and UI: command classes, panels, `terminus_open`, status and error messages, `set_timeout`, and `is_enabled`/`description`. Reading and writing project data is modelled as a function from the old project dictionary to the new one. The case where `project_data()` returns `None` is not modelled.
- Filesystem effects: `makedirs`, writing `query.json`, the cache clearing, `iglob` and `os.walk`. Listings and walks are input sequences, and paths use '/' (the POSIX `os.path.join`).
- JSON (de)serialisation. Reply and target documents are datatypes, and a file the reply references is looked up in a map of parsed documents. A missing file becomes `FileNotFound` with the reply-relative name.
- `__handle_response` dispatch by `kind` and `__parse_file_api`. The translation starts from the codemodel document.
- The `assert self.info` in `__handle_response_codemodel`. The command is constructed with its `CmakeInfo` values.
- Codemodel.ConfigBuildSystem: a configuration name of JSON `null` is not modelled separately. Names are strings, and only the empty string becomes "Default".
- `shlex.split` in `CmakeRunCommand.on_done`, and `cached_command_line_args`.
- The matching semantics of the diagnostic regular expressions. They are opaque constants.
- `CmakeInfo` reading settings with variable expansion, and `__make_vs_environment`. Settings values arrive already expanded.
- Strings.LowerAscii: `str.lower` is modelled on ASCII letters only. `str.split()` and `str.strip()` treat ASCII whitespace only. `int()` accepts only an optionally signed run of ASCII digits.
- The Ninja `variants` subprocess call, which refers to a `shell_cmd` the method never defines. Only the line filter over given lines is modelled.
- The `CMakeGenerator` base class and its `get_cmake_key`. They are not part of this model, and the Visual Studio configuration list is a parameter.
- CmakeInfo.OverrideArgsShape: a `command_line_overrides` value that is a float, a list or a dictionary is not modelled (only booleans, strings, integers and null are). `str` would render it by Python's `repr` rules, such as "10.15" for 10.15.
- FileApi.GetIndexFile: the build folder is matched literally. `iglob` treats `*`, `?` and `[` in the build-folder path as pattern characters. So for a folder such as `build[1]` the code finds no index file and raises `IndexError`, where the model finds the index.
- Generators.BuildCommand: `reply` stands for what loading the reply index produces (the parsed document, or the error from finding or reading it). Finding the index is `FileApi.GetIndexFile`; opening and parsing the file is not modelled. The build command resolves the generator with the corrected `make_generator` of the Findings table.
- The CTest, run and diagnosis commands' own logic. Only the `Diag` rendering and `tabulate` are modelled.

## Findings

| source | as written | input that shows it | evidently intended | confidence | as-written member | corrected member |
|---|---|---|---|---|---|---|
| generators/windows/Visual_Studio.py:39-40 | A name containing '[' reaches `target.substr(...)`. Python strings have no `substr`, so `shell_cmd` raises `AttributeError` for every variant named with a configuration. | `"app [Debug]"` | `cmake --build . --target app --config Debug`: the text before " [" is the target, the text between the brackets the configuration | not executed | VisualStudio.ShellCmdAsWrittenFailsOnConfigNames | VisualStudio.ShellCmdOfVariantName |
| plugin.py:239-250 | Without a generator name, the name is read from the reply into `generator`. The `elif` chain that follows belongs to the same `if`, so it is skipped, and the final `raise KeyError("unknown generator")` always runs. | `generator=None`, with a reply whose `cmake.generator.name` is "Ninja" | the name read from the reply chooses the generator as a given name does, here `NinjaGenerator` | not executed | Generators.MakeGeneratorAsWrittenIgnoresReply | Generators.MakeGeneratorReadsReply |
