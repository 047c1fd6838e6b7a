/** The legacy Visual Studio generator (generators/windows/Visual_Studio.py):
    one build variant per `.vcxproj` project found under the build folder (one
    per configuration when configurations are known), and the command for a
    variant name. The directory walk is a parameter. */
module VisualStudio {
  import opened Wrappers
  import opened Strings

  /** One `(root, dirs, files)` triple of `os.walk`; `dirs` is not used. */
  datatype WalkEntry = WalkEntry(root: string, files: seq<string>)

  /** A variant: `{'name': ..., 'shell_cmd': ...}`. */
  datatype NamedCommand = NamedCommand(name: string, shellCmd: string)

  const BuildPrefix: string := "cmake --build . --target "

  /** `os.path.commonprefix([a, b])`: the longest common prefix. */
  function CommonPrefix(a: string, b: string): (p: string)
    ensures StartsWith(a, p) && StartsWith(b, p)
    ensures |p| == |a| || |p| == |b| || a[|p|] != b[|p|]
  {
    if |a| == 0 || |b| == 0 || a[0] != b[0] then []
    else [a[0]] + CommonPrefix(a[1..], b[1..])
  }

  /** The walked directory relative to the build folder, with forward slashes. */
  function RelativeDir(root: string, buildFolder: string): (relative: string)
    ensures '\\' !in relative
  {
    var relative := root[|CommonPrefix(root, buildFolder)|..];
    var relative := if StartsWith(relative, "\\") then relative[1..] else relative;
    ReplaceChar(relative, '\\', '/')
  }

  /** The target of project file `file` (a `.vcxproj`) found in `root`. */
  function TargetName(root: string, buildFolder: string, file: string): string
    requires EndsWith(file, ".vcxproj")
  {
    var stem := file[..|file| - |".vcxproj"|];
    var relative := RelativeDir(root, buildFolder);
    if relative == "/" || relative == "" then stem else relative + "/" + stem
  }

  function ConfigVariant(target: string, config: string): NamedCommand {
    NamedCommand(target + " [" + config + "]", BuildPrefix + target + " --config " + config)
  }

  /** The variants of one configuration list, in order. */
  function ConfigVariants(target: string, configs: seq<string>): seq<NamedCommand> {
    if |configs| == 0 then []
    else ConfigVariants(target, configs[..|configs| - 1]) + [ConfigVariant(target, configs[|configs| - 1])]
  }

  /** One project's variants: per configuration, or one plain one when
      `configs` is missing or empty. */
  function ProjectVariants(target: string, configs: Option<seq<string>>): seq<NamedCommand> {
    if configs.Some? && |configs.value| > 0 then ConfigVariants(target, configs.value)
    else [NamedCommand(target, BuildPrefix + target)]
  }

  /** The variants of the first files of one walked directory. */
  function FilesVariants(root: string, files: seq<string>, buildFolder: string, configs: Option<seq<string>>): seq<NamedCommand> {
    if |files| == 0 then []
    else
      var file := files[|files| - 1];
      FilesVariants(root, files[..|files| - 1], buildFolder, configs)
      + (if EndsWith(file, ".vcxproj") then ProjectVariants(TargetName(root, buildFolder, file), configs) else [])
  }

  function EntryVariants(entry: WalkEntry, buildFolder: string, configs: Option<seq<string>>): seq<NamedCommand> {
    if Contains(entry.root, "CMakeFiles") then [] else FilesVariants(entry.root, entry.files, buildFolder, configs)
  }

  function WalkVariants(walk: seq<WalkEntry>, buildFolder: string, configs: Option<seq<string>>): seq<NamedCommand> {
    if |walk| == 0 then []
    else WalkVariants(walk[..|walk| - 1], buildFolder, configs) + EntryVariants(walk[|walk| - 1], buildFolder, configs)
  }

  lemma WalkVariantsStep(walk: seq<WalkEntry>, i: int, buildFolder: string, configs: Option<seq<string>>)
    requires 0 <= i < |walk|
    ensures WalkVariants(walk[..i + 1], buildFolder, configs)
            == WalkVariants(walk[..i], buildFolder, configs) + EntryVariants(walk[i], buildFolder, configs)
  {
    assert walk[..i + 1][..i] == walk[..i];
  }

  lemma FilesVariantsStep(root: string, files: seq<string>, j: int, buildFolder: string, configs: Option<seq<string>>)
    requires 0 <= j < |files|
    ensures FilesVariants(root, files[..j + 1], buildFolder, configs)
            == FilesVariants(root, files[..j], buildFolder, configs)
               + (if EndsWith(files[j], ".vcxproj") then ProjectVariants(TargetName(root, buildFolder, files[j]), configs) else [])
  {
    assert files[..j + 1][..j] == files[..j];
  }

  lemma ConfigVariantsStep(target: string, configs: seq<string>, k: int)
    requires 0 <= k < |configs|
    ensures ConfigVariants(target, configs[..k + 1]) == ConfigVariants(target, configs[..k]) + [ConfigVariant(target, configs[k])]
  {
    assert configs[..k + 1][..k] == configs[..k];
  }

  /** `variants`: walks the build folder's projects and names their variants. */
  method Variants(walk: seq<WalkEntry>, buildFolder: string, configs: Option<seq<string>>)
    returns (variants: seq<NamedCommand>)
    ensures variants == WalkVariants(walk, buildFolder, configs)
  {
    variants := [];
    for i := 0 to |walk|
      invariant variants == WalkVariants(walk[..i], buildFolder, configs)
    {
      WalkVariantsStep(walk, i, buildFolder, configs);
      ghost var before := variants;
      var root := walk[i].root;
      var files := walk[i].files;
      if Contains(root, "CMakeFiles") {
        AppendAssoc(before, [], []);
        continue;
      }
      for j := 0 to |files|
        invariant variants == before + FilesVariants(root, files[..j], buildFolder, configs)
      {
        FilesVariantsStep(root, files, j, buildFolder, configs);
        ghost var done := FilesVariants(root, files[..j], buildFolder, configs);
        var file := files[j];
        if !EndsWith(file, ".vcxproj") {
          AppendAssoc(before, done, []);
          continue;
        }
        var target := TargetName(root, buildFolder, file);
        ghost var start := variants;
        if configs.Some? && |configs.value| > 0 {
          for k := 0 to |configs.value|
            invariant variants == start + ConfigVariants(target, configs.value[..k])
          {
            ConfigVariantsStep(target, configs.value, k);
            AppendAssoc(start, ConfigVariants(target, configs.value[..k]), [ConfigVariant(target, configs.value[k])]);
            var config := configs.value[k];
            variants := variants + [NamedCommand(target + " [" + config + "]", BuildPrefix + target + " --config " + config)];
          }
          assert configs.value[..|configs.value|] == configs.value;
        } else {
          variants := variants + [NamedCommand(target, BuildPrefix + target)];
        }
        AppendAssoc(before, done, ProjectVariants(target, configs));
      }
      assert files[..|files|] == files;
    }
    assert walk[..|walk|] == walk;
  }

  /** With configurations, a project has one variant per configuration, in
      order, named "target [config]" and building with `--config config`. */
  lemma {:induction false} ConfigVariantsSpec(target: string, configs: seq<string>)
    ensures |ConfigVariants(target, configs)| == |configs|
    ensures forall k :: 0 <= k < |configs| ==>
              ConfigVariants(target, configs)[k].name == target + " [" + configs[k] + "]"
              && ConfigVariants(target, configs)[k].shellCmd == BuildPrefix + target + " --config " + configs[k]
    decreases |configs|
  {
    if |configs| > 0 {
      ConfigVariantsSpec(target, configs[..|configs| - 1]);
    }
  }

  /** A project yields as many variants as there are configurations, and one without any. */
  function VariantsPerProject(configs: Option<seq<string>>): nat {
    if configs.Some? && |configs.value| > 0 then |configs.value| else 1
  }

  /** The number of project files a walk finds outside `CMakeFiles` directories. */
  function ProjectCount(walk: seq<WalkEntry>): nat {
    if |walk| == 0 then 0
    else ProjectCount(walk[..|walk| - 1])
         + (if Contains(walk[|walk| - 1].root, "CMakeFiles") then 0 else ProjectFiles(walk[|walk| - 1].files))
  }

  function ProjectFiles(files: seq<string>): nat {
    if |files| == 0 then 0
    else ProjectFiles(files[..|files| - 1]) + (if EndsWith(files[|files| - 1], ".vcxproj") then 1 else 0)
  }

  /** Multiplication distributes over addition (kept apart so that the counting
      proofs stay linear). */
  lemma Distribute(a: nat, b: nat, n: nat)
    ensures (a + b) * n == a * n + b * n
  {
  }

  lemma {:induction false} FilesVariantsCount(root: string, files: seq<string>, buildFolder: string, configs: Option<seq<string>>)
    ensures |FilesVariants(root, files, buildFolder, configs)| == ProjectFiles(files) * VariantsPerProject(configs)
    decreases |files|
  {
    if |files| > 0 {
      var init := files[..|files| - 1];
      var file := files[|files| - 1];
      var n := VariantsPerProject(configs);
      FilesVariantsCount(root, init, buildFolder, configs);
      if EndsWith(file, ".vcxproj") {
        var target := TargetName(root, buildFolder, file);
        if configs.Some? && |configs.value| > 0 {
          ConfigVariantsSpec(target, configs.value);
        }
        assert |ProjectVariants(target, configs)| == n;
        assert ProjectFiles(files) == ProjectFiles(init) + 1;
        Distribute(ProjectFiles(init), 1, n);
      } else {
        assert ProjectFiles(files) == ProjectFiles(init);
      }
    }
  }

  /** The walk yields exactly one variant per project file and configuration. */
  lemma {:induction false} WalkVariantsCount(walk: seq<WalkEntry>, buildFolder: string, configs: Option<seq<string>>)
    ensures |WalkVariants(walk, buildFolder, configs)| == ProjectCount(walk) * VariantsPerProject(configs)
    decreases |walk|
  {
    if |walk| > 0 {
      var init := walk[..|walk| - 1];
      var e := walk[|walk| - 1];
      var n := VariantsPerProject(configs);
      WalkVariantsCount(init, buildFolder, configs);
      FilesVariantsCount(e.root, e.files, buildFolder, configs);
      var m := if Contains(e.root, "CMakeFiles") then 0 else ProjectFiles(e.files);
      assert |EntryVariants(e, buildFolder, configs)| == m * n;
      assert ProjectCount(walk) == ProjectCount(init) + m;
      Distribute(ProjectCount(init), m, n);
    }
  }

  /** A project's target ends with the file name less `.vcxproj`; it is that
      name alone for a project in the build folder itself, and otherwise is
      prefixed by the relative directory, which has forward slashes only. */
  lemma TargetNameSpec(root: string, buildFolder: string, file: string)
    requires EndsWith(file, ".vcxproj")
    ensures var stem := file[..|file| - |".vcxproj"|];
      && EndsWith(TargetName(root, buildFolder, file), stem)
      && (root == buildFolder ==> TargetName(root, buildFolder, file) == stem)
      && '\\' !in TargetName(root, buildFolder, file)[..|TargetName(root, buildFolder, file)| - |stem|]
  {
    var stem := file[..|file| - |".vcxproj"|];
    var t := TargetName(root, buildFolder, file);
    assert t[|t| - |stem|..] == stem;
    if root == buildFolder {
      assert |CommonPrefix(root, buildFolder)| == |root|;
      assert root[|root|..] == [];
    }
  }

  /** The build folder is the common prefix of itself and any path below it. */
  lemma {:induction false} CommonPrefixOfExtension(buildFolder: string, ext: string)
    ensures CommonPrefix(buildFolder + ext, buildFolder) == buildFolder
    decreases |buildFolder|
  {
    if |buildFolder| > 0 {
      assert (buildFolder + ext)[1..] == buildFolder[1..] + ext;
      CommonPrefixOfExtension(buildFolder[1..], ext);
      assert [buildFolder[0]] + buildFolder[1..] == buildFolder;
    }
  }

  /** For a directory `sub` below the build folder, the relative directory is
      `sub` with its backslashes turned into forward slashes: the build folder
      and the one separator after it are removed. The build folder itself is
      the empty relative directory. */
  lemma RelativeDirBelow(buildFolder: string, sub: string)
    ensures RelativeDir(buildFolder + "\\" + sub, buildFolder) == ReplaceChar(sub, '\\', '/')
    ensures RelativeDir(buildFolder, buildFolder) == ""
  {
    var root := buildFolder + "\\" + sub;
    assert root == buildFolder + ("\\" + sub);
    CommonPrefixOfExtension(buildFolder, "\\" + sub);
    assert root[|buildFolder|..] == "\\" + sub;
    assert ("\\" + sub)[1..] == sub;
    CommonPrefixOfExtension(buildFolder, "");
    assert buildFolder + "" == buildFolder;
    assert buildFolder[|buildFolder|..] == "";
  }

  /** A project `stem.vcxproj` in a sub-directory `sub` of the build folder is
      the target `sub/stem` (with forward slashes), unless `sub` is itself a
      lone separator; one in the build folder is the target `stem`. */
  lemma TargetNameBelow(buildFolder: string, sub: string, stem: string)
    requires sub != "" && sub != "/" && sub != "\\"
    ensures EndsWith(stem + ".vcxproj", ".vcxproj")
    ensures TargetName(buildFolder + "\\" + sub, buildFolder, stem + ".vcxproj")
            == ReplaceChar(sub, '\\', '/') + "/" + stem
    ensures TargetName(buildFolder, buildFolder, stem + ".vcxproj") == stem
  {
    var file := stem + ".vcxproj";
    assert file[|stem|..] == ".vcxproj";
    assert file[..|file| - |".vcxproj"|] == stem;
    RelativeDirBelow(buildFolder, sub);
    var relative := ReplaceChar(sub, '\\', '/');
    assert relative != "/" by {
      if |sub| == 1 {
        assert sub == [sub[0]];
      }
    }
  }

  /** `shell_cmd` as written: a name with '[' (every name built with a
      configuration) reaches `str.substr`, which Python strings lack. */
  function ShellCmdAsWritten(name: string): Result<string, PyError> {
    if '[' !in name then Ok(BuildPrefix + name) else Err(AttributeError("substr"))
  }

  /** Every variant name built with a configuration makes `shell_cmd` fail. */
  lemma ShellCmdAsWrittenFailsOnConfigNames(target: string, config: string)
    ensures ShellCmdAsWritten(ConfigVariant(target, config).name) == Err(AttributeError("substr"))
  {
    var name := target + " [" + config + "]";
    assert name[|target| + 1] == '[';
  }

  /** `shell_cmd` as evidently intended: "target [config]" builds `target`
      with `--config config`; a name without '[' builds itself. */
  function ShellCmd(name: string): string {
    match IndexOf(name, '[')
    case None => BuildPrefix + name
    case Some(start) =>
      var target := if start == 0 then "" else name[..start - 1];
      var rest := name[start + 1..];
      var config := match IndexOf(rest, ']') case None => rest case Some(end) => rest[..end];
      BuildPrefix + target + " --config " + config
  }

  lemma ConfigNameOpening(target: string, config: string)
    requires '[' !in target
    ensures IndexOf(ConfigVariant(target, config).name, '[') == Some(|target| + 1)
  {
    var name := target + " [" + config + "]";
    assert name == (target + " ") + ['['] + (config + "]");
    IndexOfAfter(target + " ", '[', config + "]");
  }

  lemma ConfigNameSlices(target: string, config: string)
    ensures var name := ConfigVariant(target, config).name;
      |name| == |target| + |config| + 3
      && name[..|target|] == target && name[|target| + 2..] == config + "]"
  {
  }

  lemma ConfigNameClosing(config: string)
    requires ']' !in config
    ensures IndexOf(config + "]", ']') == Some(|config|) && (config + "]")[..|config|] == config
  {
    assert config + "]" == config + [']'] + "";
    IndexOfAfter(config, ']', "");
  }

  /** The command for a variant's name is the variant's own command. */
  lemma ShellCmdOfVariantName(target: string, config: string)
    requires '[' !in target && ']' !in config
    ensures ShellCmd(ConfigVariant(target, config).name) == ConfigVariant(target, config).shellCmd
    ensures ShellCmd(target) == NamedCommand(target, BuildPrefix + target).shellCmd
  {
    ConfigNameOpening(target, config);
    ConfigNameSlices(target, config);
    ConfigNameClosing(config);
  }
}
