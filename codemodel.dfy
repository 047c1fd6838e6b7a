/** The CMake File API codemodel as the plugin reads it, and the build-system
    variants it derives from it (`__handle_response_codemodel`, `__handle_target`),
    stated as functions of the parsed reply documents. A key the code subscripts
    may be missing from a document, which the code turns into a `KeyError`;
    every such key is an `Option` here. */
module Codemodel {
  import opened Wrappers
  import opened Strings
  import opened Json
  import opened Settings

  datatype ArtifactDoc = ArtifactDoc(path: Option<string>)

  /** A target document: `name`, `type`, `nameOnDisk`, `artifacts`. */
  datatype TargetDoc = TargetDoc(
    name: Option<string>,
    kind: Option<string>,
    nameOnDisk: Option<string>,
    artifacts: Option<seq<ArtifactDoc>>)

  /** A codemodel's reference to a target document. */
  datatype TargetRef = TargetRef(jsonFile: Option<string>)

  datatype ConfigurationDoc = ConfigurationDoc(name: Option<string>, targets: Option<seq<TargetRef>>)

  datatype CodemodelDoc = CodemodelDoc(configurations: Option<seq<ConfigurationDoc>>)

  /** The parsed target documents of the reply directory, by reply-relative file
      name; a name that is absent cannot be opened. */
  type ReplyFiles = map<string, TargetDoc>

  /** One entry of a build system's `variants` list. */
  datatype Variant =
    | BuildVariant(buildTarget: string)
    | RunVariant(buildTarget: string, artifact: string)
    | DebugVariant(debugger: string, buildTarget: string, artifact: string)
    | CtestVariant
  {
    function Name(): string {
      match this
      case BuildVariant(t) => t
      case RunVariant(t, _) => "Run: " + t
      case DebugVariant(d, t, _) => "Run under " + d + ": " + t
      case CtestVariant => "ctest"
    }

    /** The dictionary written into the project file. */
    function ToValue(): Value {
      match this
      case BuildVariant(t) => Obj(map["name" := Str(Name()), "build_target" := Str(t)])
      case RunVariant(t, a) =>
        Obj(map["name" := Str(Name()), "build_target" := Str(t), "target" := Str("cmake_run"), "artifact" := Str(a)])
      case DebugVariant(_, t, a) =>
        Obj(map["name" := Str(Name()), "build_target" := Str(t), "target" := Str("cmake_run"), "artifact" := Str(a),
                "debug" := Bool(true)])
      case CtestVariant => Obj(map["name" := Str("ctest"), "target" := Str("ctest_run")])
    }
  }

  /** The settings a build system copies from `CmakeInfo`; an empty generator is unset. */
  datatype ConfigureInfo = ConfigureInfo(unexpandedBuildFolder: string, env: map<string, string>, generator: string)

  /** One generated build system: one per configuration. */
  datatype BuildSystem = BuildSystem(
    name: string,
    config: string,
    workingDir: string,
    env: map<string, string>,
    generator: Option<string>,
    variants: seq<Variant>)
  {
    /** The dictionary written into the project file; its `target` marks it as ours. */
    function ToValue(): (v: Value)
      ensures v.Obj? && "target" in v.fields && v.fields["target"] == Str("cmake_build")
    {
      var base := map[
        "name" := Str(name),
        "config" := Str(config),
        "target" := Str("cmake_build"),
        "cancel" := Obj(map["kill" := Bool(true)]),
        "working_dir" := Str(workingDir),
        "env" := Obj(map k | k in env :: Str(env[k])),
        "variants" := Arr(seq(|variants|, i requires 0 <= i < |variants| => variants[i].ToValue()))];
      Obj(if generator.Some? then base["generator" := Str(generator.value)] else base)
    }
  }

  /** The debug variant's debugger for a platform: GDB on linux, LLDB on osx, none on windows. */
  function Debugger(platform: Platform): Option<string> {
    match platform
    case Linux => Some("GDB")
    case Osx => Some("LLDB")
    case Windows => None
  }

  /** `[a["path"] for a in artifacts if a["path"].endswith(name_on_disk)]` */
  function MatchingArtifacts(artifacts: seq<ArtifactDoc>, nameOnDisk: string): Result<seq<string>, PyError> {
    if artifacts == [] then Ok([])
    else if artifacts[0].path.None? then Err(KeyError("path"))
    else match MatchingArtifacts(artifacts[1..], nameOnDisk)
      case Err(e) => Err(e)
      case Ok(rest) =>
        Ok((if EndsWith(artifacts[0].path.value, nameOnDisk) then [artifacts[0].path.value] else []) + rest)
  }

  predicate IsMatch(artifacts: seq<ArtifactDoc>, nameOnDisk: string, i: int) {
    0 <= i < |artifacts| && artifacts[i].path.Some? && EndsWith(artifacts[i].path.value, nameOnDisk)
  }

  /** Exactly one artifact (counting repeated paths separately) ends with `nameOnDisk`. */
  ghost predicate ExactlyOneMatch(artifacts: seq<ArtifactDoc>, nameOnDisk: string) {
    exists i :: IsMatch(artifacts, nameOnDisk, i) && forall j :: IsMatch(artifacts, nameOnDisk, j) ==> j == i
  }

  /** The filter fails, with `KeyError`, exactly when some artifact has no path. */
  lemma {:induction false} MatchingArtifactsFails(artifacts: seq<ArtifactDoc>, nameOnDisk: string)
    ensures MatchingArtifacts(artifacts, nameOnDisk).Ok? <==> forall i :: 0 <= i < |artifacts| ==> artifacts[i].path.Some?
    ensures MatchingArtifacts(artifacts, nameOnDisk).Err? ==> MatchingArtifacts(artifacts, nameOnDisk).error == KeyError("path")
    decreases |artifacts|
  {
    if artifacts != [] {
      MatchingArtifactsFails(artifacts[1..], nameOnDisk);
      if artifacts[0].path.Some? {
        forall i | 1 <= i < |artifacts| ensures artifacts[i] == artifacts[1..][i - 1] { }
      }
    }
  }

  /** The filter keeps exactly the paths that end with `nameOnDisk` (a plain
      suffix test, not a path-component test). */
  lemma {:induction false} MatchingArtifactsMembers(artifacts: seq<ArtifactDoc>, nameOnDisk: string)
    requires MatchingArtifacts(artifacts, nameOnDisk).Ok?
    ensures forall p :: p in MatchingArtifacts(artifacts, nameOnDisk).value <==>
              (exists i :: IsMatch(artifacts, nameOnDisk, i) && artifacts[i].path.value == p)
    decreases |artifacts|
  {
    if artifacts != [] {
      var tail := artifacts[1..];
      MatchingArtifactsMembers(tail, nameOnDisk);
      forall i | 0 <= i < |tail| ensures IsMatch(tail, nameOnDisk, i) == IsMatch(artifacts, nameOnDisk, i + 1) { }
      forall p | (exists i :: IsMatch(artifacts, nameOnDisk, i) && artifacts[i].path.value == p)
        ensures p in MatchingArtifacts(artifacts, nameOnDisk).value
      {
        var i :| IsMatch(artifacts, nameOnDisk, i) && artifacts[i].path.value == p;
        if i > 0 { assert IsMatch(tail, nameOnDisk, i - 1); }
      }
    }
  }

  /** The filter keeps nothing exactly when no artifact matches. */
  lemma {:induction false} MatchingArtifactsEmpty(artifacts: seq<ArtifactDoc>, nameOnDisk: string)
    requires MatchingArtifacts(artifacts, nameOnDisk).Ok?
    ensures |MatchingArtifacts(artifacts, nameOnDisk).value| == 0 <==> forall i :: !IsMatch(artifacts, nameOnDisk, i)
    decreases |artifacts|
  {
    if artifacts != [] {
      var tail := artifacts[1..];
      MatchingArtifactsEmpty(tail, nameOnDisk);
      if |MatchingArtifacts(artifacts, nameOnDisk).value| == 0 {
        forall i ensures !IsMatch(artifacts, nameOnDisk, i) {
          if 0 < i < |artifacts| { assert !IsMatch(tail, nameOnDisk, i - 1); }
        }
      } else if !IsMatch(artifacts, nameOnDisk, 0) {
        var i :| IsMatch(tail, nameOnDisk, i);
        assert IsMatch(artifacts, nameOnDisk, i + 1);
      }
    }
  }

  /** The filter keeps a single path exactly when a single artifact matches,
      counting artifacts with equal paths separately. */
  lemma {:induction false} MatchingArtifactsSingle(artifacts: seq<ArtifactDoc>, nameOnDisk: string)
    requires MatchingArtifacts(artifacts, nameOnDisk).Ok?
    ensures |MatchingArtifacts(artifacts, nameOnDisk).value| == 1 <==> ExactlyOneMatch(artifacts, nameOnDisk)
    decreases |artifacts|
  {
    if artifacts != [] {
      var tail := artifacts[1..];
      var rest := MatchingArtifacts(tail, nameOnDisk).value;
      forall i | 0 <= i < |tail| ensures IsMatch(tail, nameOnDisk, i) == IsMatch(artifacts, nameOnDisk, i + 1) { }
      if IsMatch(artifacts, nameOnDisk, 0) {
        MatchingArtifactsEmpty(tail, nameOnDisk);
        if |rest| == 0 {
          forall j | j != 0 ensures !IsMatch(artifacts, nameOnDisk, j) {
            if 0 < j < |artifacts| { assert !IsMatch(tail, nameOnDisk, j - 1); }
          }
        } else {
          var i :| IsMatch(tail, nameOnDisk, i);
          assert IsMatch(artifacts, nameOnDisk, i + 1);
        }
      } else {
        MatchingArtifactsSingle(tail, nameOnDisk);
        if ExactlyOneMatch(tail, nameOnDisk) {
          var i :| IsMatch(tail, nameOnDisk, i) && forall j :: IsMatch(tail, nameOnDisk, j) ==> j == i;
          assert IsMatch(artifacts, nameOnDisk, i + 1);
          forall j | IsMatch(artifacts, nameOnDisk, j) ensures j == i + 1 {
            assert IsMatch(tail, nameOnDisk, j - 1);
          }
        }
        if ExactlyOneMatch(artifacts, nameOnDisk) {
          var i :| IsMatch(artifacts, nameOnDisk, i) && forall j :: IsMatch(artifacts, nameOnDisk, j) ==> j == i;
          assert IsMatch(tail, nameOnDisk, i - 1);
          forall j | IsMatch(tail, nameOnDisk, j) ensures j == i - 1 {
            assert IsMatch(artifacts, nameOnDisk, j + 1);
          }
        }
      }
    }
  }

  /** `__handle_target`: the variants one target contributes. */
  function TargetVariants(data: TargetDoc, platform: Platform): Result<seq<Variant>, PyError> {
    if data.name.None? then Err(KeyError("name"))
    else
      var name := data.name.value;
      if data.kind.None? then Err(KeyError("type"))
      else if data.kind.value != "EXECUTABLE" then Ok([BuildVariant(name)])
      else if data.artifacts.None? then Err(KeyError("artifacts"))
      else if data.nameOnDisk.None? then Err(KeyError("nameOnDisk"))
      else match MatchingArtifacts(data.artifacts.value, data.nameOnDisk.value)
        case Err(e) => Err(e)
        case Ok(paths) =>
          if |paths| != 1 then Ok([BuildVariant(name)])
          else
            var run := [BuildVariant(name), RunVariant(name, paths[0])];
            match Debugger(platform)
            case None => Ok(run)
            case Some(d) => Ok(run + [DebugVariant(d, name, paths[0])])
  }

  /** Every target gets its build variant first. An executable also gets a run
      variant exactly when exactly one artifact path ends with `nameOnDisk`, and
      then a debug variant for the same artifact right after it on linux and osx.
      Missing keys fail with `KeyError`, the artifact keys only for executables. */
  lemma TargetVariantsSpec(data: TargetDoc, platform: Platform)
    ensures var r := TargetVariants(data, platform);
      && (r.Err? <==> data.name.None? || data.kind.None?
                      || (data.kind.value == "EXECUTABLE"
                          && (data.artifacts.None? || data.nameOnDisk.None?
                              || exists i :: 0 <= i < |data.artifacts.value| && data.artifacts.value[i].path.None?)))
      && (r.Ok? ==> 1 <= |r.value| <= 3 && r.value[0] == BuildVariant(data.name.value))
      && (r.Ok? && data.kind.value != "EXECUTABLE" ==> |r.value| == 1)
      && (r.Ok? && data.kind.value == "EXECUTABLE" ==>
            (|r.value| > 1 <==> ExactlyOneMatch(data.artifacts.value, data.nameOnDisk.value)))
      && (r.Ok? && |r.value| > 1 ==>
            exists i :: IsMatch(data.artifacts.value, data.nameOnDisk.value, i)
              && r.value[1] == RunVariant(data.name.value, data.artifacts.value[i].path.value))
      && (r.Ok? && |r.value| > 1 ==>
            (|r.value| == 3 <==> platform != Windows))
      && (r.Ok? && |r.value| == 3 ==>
            r.value[2] == DebugVariant(Debugger(platform).value, data.name.value, r.value[1].artifact))
  {
    if data.name.Some? && data.kind.Some? && data.kind.value == "EXECUTABLE"
       && data.artifacts.Some? && data.nameOnDisk.Some? {
      MatchingArtifactsFails(data.artifacts.value, data.nameOnDisk.value);
      var m := MatchingArtifacts(data.artifacts.value, data.nameOnDisk.value);
      if m.Ok? {
        MatchingArtifactsMembers(data.artifacts.value, data.nameOnDisk.value);
        MatchingArtifactsSingle(data.artifacts.value, data.nameOnDisk.value);
        if |m.value| == 1 {
          assert m.value[0] in m.value;
        }
      }
    }
  }

  /** The suffix test is textual: a debug-symbol bundle whose inner file has the
      executable's name also matches, so such a target gets no run variant. */
  lemma DebugBundleHidesRun(platform: Platform)
    ensures TargetVariants(TargetDoc(Some("foo"), Some("EXECUTABLE"), Some("foo.exe"),
                                     Some([ArtifactDoc(Some("build/foo.exe.dSYM/foo.exe")), ArtifactDoc(Some("build/foo.exe"))])),
                           platform)
            == Ok([BuildVariant("foo")])
  {
    var arts := [ArtifactDoc(Some("build/foo.exe.dSYM/foo.exe")), ArtifactDoc(Some("build/foo.exe"))];
    assert EndsWith("build/foo.exe.dSYM/foo.exe", "foo.exe") by {
      assert "build/foo.exe.dSYM/foo.exe"[19..] == "foo.exe";
    }
    assert EndsWith("build/foo.exe", "foo.exe") by {
      assert "build/foo.exe"[6..] == "foo.exe";
    }
    assert arts[1..][1..] == [];
    assert MatchingArtifacts(arts[1..][1..], "foo.exe") == Ok([]);
    assert arts[1..][0].path.value == "build/foo.exe";
    assert MatchingArtifacts(arts[1..], "foo.exe") == Ok(["build/foo.exe"] + []);
    assert ["build/foo.exe"] + [] == ["build/foo.exe"];
    assert MatchingArtifacts(arts, "foo.exe") == Ok(["build/foo.exe.dSYM/foo.exe"] + ["build/foo.exe"]);
  }

  /** A target with a single matching artifact gets build, run and (off windows) debug variants. */
  lemma SingleArtifactRuns(platform: Platform)
    ensures TargetVariants(TargetDoc(Some("app"), Some("EXECUTABLE"), Some("app"),
                                     Some([ArtifactDoc(Some("bin/app"))])), platform)
            == Ok([BuildVariant("app"), RunVariant("app", "bin/app")]
                  + (if platform == Windows then [] else [DebugVariant(Debugger(platform).value, "app", "bin/app")]))
  {
    var arts := [ArtifactDoc(Some("bin/app"))];
    assert EndsWith("bin/app", "app") by { assert "bin/app"[4..] == "app"; }
    assert arts[1..] == [];
    assert MatchingArtifacts(arts[1..], "app") == Ok([]);
    assert MatchingArtifacts(arts, "app") == Ok(["bin/app"] + []);
    var run := [BuildVariant("app"), RunVariant("app", "bin/app")];
    if platform != Windows {
      assert TargetVariants(TargetDoc(Some("app"), Some("EXECUTABLE"), Some("app"), Some(arts)), platform)
             == Ok(run + [DebugVariant(Debugger(platform).value, "app", "bin/app")]);
    } else {
      assert run + [] == run;
    }
  }

  /** `__load_reply_json_file(target["jsonFile"])`: the referenced document, if it can be read. */
  function LoadTargetDoc(ref: TargetRef, files: ReplyFiles): (r: Result<TargetDoc, PyError>)
    ensures r.Ok? <==> ref.jsonFile.Some? && ref.jsonFile.value in files
    ensures r.Ok? ==> r.value == files[ref.jsonFile.value]
  {
    if ref.jsonFile.None? then Err(KeyError("jsonFile"))
    else if ref.jsonFile.value !in files then Err(FileNotFound(ref.jsonFile.value))
    else Ok(files[ref.jsonFile.value])
  }

  /** Loading one referenced target document and translating it. */
  function LoadTargetVariants(ref: TargetRef, files: ReplyFiles, platform: Platform): Result<seq<Variant>, PyError> {
    match LoadTargetDoc(ref, files)
    case Err(e) => Err(e)
    case Ok(data) => TargetVariants(data, platform)
  }

  /** The variants of all targets in declared order; the first failing target's error. */
  function TargetsVariants(refs: seq<TargetRef>, files: ReplyFiles, platform: Platform): Result<seq<Variant>, PyError> {
    if refs == [] then Ok([])
    else match LoadTargetVariants(refs[0], files, platform)
      case Err(e) => Err(e)
      case Ok(first) =>
        match TargetsVariants(refs[1..], files, platform)
        case Err(e) => Err(e)
        case Ok(rest) => Ok(first + rest)
  }

  /** The name of a referenced target, when its document can be read. */
  function TargetName(ref: TargetRef, files: ReplyFiles): string {
    if ref.jsonFile.Some? && ref.jsonFile.value in files && files[ref.jsonFile.value].name.Some?
    then files[ref.jsonFile.value].name.value else ""
  }

  function TargetNames(refs: seq<TargetRef>, files: ReplyFiles): seq<string> {
    if refs == [] then [] else [TargetName(refs[0], files)] + TargetNames(refs[1..], files)
  }

  /** The build targets of the build variants, in list order. */
  function BuildTargets(vs: seq<Variant>): seq<string> {
    if vs == [] then []
    else (if vs[0].BuildVariant? then [vs[0].buildTarget] else []) + BuildTargets(vs[1..])
  }

  lemma {:induction false} BuildTargetsAppend(a: seq<Variant>, b: seq<Variant>)
    ensures BuildTargets(a + b) == BuildTargets(a) + BuildTargets(b)
    decreases |a|
  {
    if a == [] {
      assert a + b == b;
    } else {
      assert (a + b)[1..] == a[1..] + b;
      BuildTargetsAppend(a[1..], b);
    }
  }

  lemma {:induction false} BuildTargetsOfNonBuilds(vs: seq<Variant>)
    requires forall i :: 0 <= i < |vs| ==> !vs[i].BuildVariant?
    ensures BuildTargets(vs) == []
    decreases |vs|
  {
    if vs != [] {
      BuildTargetsOfNonBuilds(vs[1..]);
    }
  }

  /** Every run variant directly follows the build variant of its target, and
      every debug variant directly follows the run variant of its target and artifact. */
  predicate RunsFollowBuilds(vs: seq<Variant>) {
    forall i :: 0 <= i < |vs| ==> FollowsItsBuild(vs, i)
  }

  predicate FollowsItsBuild(vs: seq<Variant>, i: int)
    requires 0 <= i < |vs|
  {
    && (vs[i].RunVariant? ==> i > 0 && vs[i - 1] == BuildVariant(vs[i].buildTarget))
    && (vs[i].DebugVariant? ==> i > 0 && vs[i - 1] == RunVariant(vs[i].buildTarget, vs[i].artifact))
  }

  lemma RunsFollowBuildsAppend(a: seq<Variant>, b: seq<Variant>)
    requires RunsFollowBuilds(a) && RunsFollowBuilds(b)
    requires b != [] ==> !b[0].RunVariant? && !b[0].DebugVariant?
    ensures RunsFollowBuilds(a + b)
  {
    var ab := a + b;
    forall i | 0 <= i < |ab| ensures FollowsItsBuild(ab, i) {
      if i > |a| {
        var k := i - |a|;
        assert ab[i] == b[k] && ab[i - 1] == b[k - 1];
        assert FollowsItsBuild(b, k);
      } else if i == |a| {
        assert ab[i] == b[0];
      } else {
        assert ab[i] == a[i];
        if i > 0 { assert ab[i - 1] == a[i - 1]; }
        assert FollowsItsBuild(a, i);
      }
    }
  }

  /** One target's variants: its build variant first, then the run and debug
      runs behind it, and no test variant. */
  lemma TargetVariantsShape(data: TargetDoc, platform: Platform)
    requires TargetVariants(data, platform).Ok?
    ensures var vs := TargetVariants(data, platform).value;
      && vs != [] && vs[0] == BuildVariant(data.name.value)
      && BuildTargets(vs) == [data.name.value]
      && RunsFollowBuilds(vs)
      && forall v :: v in vs ==> !v.CtestVariant?
  {
    var name := data.name.value;
    var vs := TargetVariants(data, platform).value;
    TargetVariantsSpec(data, platform);
    assert vs == [vs[0]] + vs[1..];
    BuildTargetsOfNonBuilds(vs[1..]);
    assert forall i :: 0 <= i < |vs| ==> FollowsItsBuild(vs, i);
  }

  /** The first target's variants followed by the others'. */
  lemma TargetsVariantsCons(refs: seq<TargetRef>, files: ReplyFiles, platform: Platform)
    requires refs != [] && TargetsVariants(refs, files, platform).Ok?
    ensures LoadTargetVariants(refs[0], files, platform).Ok?
    ensures TargetsVariants(refs[1..], files, platform).Ok?
    ensures TargetsVariants(refs, files, platform).value
            == LoadTargetVariants(refs[0], files, platform).value + TargetsVariants(refs[1..], files, platform).value
    ensures TargetNames(refs, files) == [TargetName(refs[0], files)] + TargetNames(refs[1..], files)
  {
  }

  /** The translated targets: build variants name the targets in declared order,
      runs and debug runs sit right behind their build variant, and no test
      variant occurs among them. */
  lemma {:induction false} TargetsVariantsOrder(refs: seq<TargetRef>, files: ReplyFiles, platform: Platform)
    requires TargetsVariants(refs, files, platform).Ok?
    ensures BuildTargets(TargetsVariants(refs, files, platform).value) == TargetNames(refs, files)
    ensures RunsFollowBuilds(TargetsVariants(refs, files, platform).value)
    ensures forall v :: v in TargetsVariants(refs, files, platform).value ==> !v.CtestVariant?
    decreases |refs|
  {
    if refs != [] {
      TargetsVariantsCons(refs, files, platform);
      var data := files[refs[0].jsonFile.value];
      var first := TargetVariants(data, platform).value;
      var rest := TargetsVariants(refs[1..], files, platform).value;
      TargetVariantsShape(data, platform);
      TargetsVariantsOrder(refs[1..], files, platform);
      BuildTargetsAppend(first, rest);
      RunsFollowBuildsAppend(first, rest);
    }
  }

  /** The configuration's display name: "Default" for the empty name. */
  function DisplayName(name: string): (r: string)
    ensures r != ""
    ensures name != "" ==> r == name
  {
    if name == "" then "Default" else name
  }

  /** One configuration's build system: every target's variants, then `ctest`. */
  function ConfigBuildSystem(conf: ConfigurationDoc, files: ReplyFiles, info: ConfigureInfo, platform: Platform)
    : Result<BuildSystem, PyError>
  {
    if conf.name.None? then Err(KeyError("name"))
    else
      var name := DisplayName(conf.name.value);
      if conf.targets.None? then Err(KeyError("targets"))
      else match TargetsVariants(conf.targets.value, files, platform)
        case Err(e) => Err(e)
        case Ok(vs) =>
          Ok(BuildSystem(name, name, info.unexpandedBuildFolder, info.env,
                         if info.generator != "" then Some(info.generator) else None,
                         vs + [CtestVariant]))
  }

  /** A configuration's build system exists exactly when its name and targets
      are present and every target translates; it is named and configured by
      the resolved name, carries the configure settings, and its variants are
      the targets' variants (build targets in declared order, each run and
      debug run behind its build) followed by exactly one `ctest` variant. */
  lemma ConfigBuildSystemSpec(conf: ConfigurationDoc, files: ReplyFiles, info: ConfigureInfo, platform: Platform)
    ensures var r := ConfigBuildSystem(conf, files, info, platform);
      && (r.Ok? <==> conf.name.Some? && conf.targets.Some? && TargetsVariants(conf.targets.value, files, platform).Ok?)
      && (conf.name.None? ==> r == Err(KeyError("name")))
      && (conf.name.Some? && conf.targets.None? ==> r == Err(KeyError("targets")))
      && (conf.name.Some? && conf.targets.Some? && TargetsVariants(conf.targets.value, files, platform).Err?
          ==> r == Err(TargetsVariants(conf.targets.value, files, platform).error))
  {
  }

  /** The contents of a configuration's build system. */
  lemma ConfigBuildSystemContents(conf: ConfigurationDoc, files: ReplyFiles, info: ConfigureInfo, platform: Platform)
    requires ConfigBuildSystem(conf, files, info, platform).Ok?
    ensures var bs := ConfigBuildSystem(conf, files, info, platform).value;
      && bs.name == bs.config == (if conf.name.value == "" then "Default" else conf.name.value)
      && bs.workingDir == info.unexpandedBuildFolder && bs.env == info.env
      && bs.generator == (if info.generator != "" then Some(info.generator) else None)
      && bs.variants == TargetsVariants(conf.targets.value, files, platform).value + [CtestVariant]
      && bs.variants[|bs.variants| - 1] == CtestVariant
      && (forall i :: 0 <= i < |bs.variants| - 1 ==> !bs.variants[i].CtestVariant?)
      && BuildTargets(bs.variants) == TargetNames(conf.targets.value, files)
      && RunsFollowBuilds(bs.variants)
  {
    var vs := TargetsVariants(conf.targets.value, files, platform).value;
    TargetsVariantsOrder(conf.targets.value, files, platform);
    BuildTargetsAppend(vs, [CtestVariant]);
    assert BuildTargets([CtestVariant]) == [] by { assert [CtestVariant][1..] == []; }
    RunsFollowBuildsAppend(vs, [CtestVariant]);
    forall i | 0 <= i < |vs| ensures (vs + [CtestVariant])[i] == vs[i] && vs[i] in vs { }
  }

  /** The build systems of the configurations in order, stopping at the first
      configuration that fails, with that failure. */
  function TranslateConfigs(confs: seq<ConfigurationDoc>, files: ReplyFiles, info: ConfigureInfo, platform: Platform)
    : (seq<BuildSystem>, Option<PyError>)
  {
    if confs == [] then ([], None)
    else match ConfigBuildSystem(confs[0], files, info, platform)
      case Err(e) => ([], Some(e))
      case Ok(bs) =>
        var (rest, err) := TranslateConfigs(confs[1..], files, info, platform);
        ([bs] + rest, err)
  }

  /** `__handle_response_codemodel`'s outcome: the build systems built, and the error, if any. */
  function TranslateCodemodel(doc: CodemodelDoc, files: ReplyFiles, info: ConfigureInfo, platform: Platform)
    : (seq<BuildSystem>, Option<PyError>)
  {
    if doc.configurations.None? then ([], Some(KeyError("configurations")))
    else TranslateConfigs(doc.configurations.value, files, info, platform)
  }

  /** The translation yields the build systems of a prefix of the configurations,
      one per configuration and in order; it reports no error exactly when that
      prefix is all of them, and otherwise the error of the next configuration. */
  lemma {:induction false} TranslateConfigsSpec(confs: seq<ConfigurationDoc>, files: ReplyFiles, info: ConfigureInfo, platform: Platform)
    ensures var (bss, err) := TranslateConfigs(confs, files, info, platform);
      && |bss| <= |confs|
      && (forall i :: 0 <= i < |bss| ==> ConfigBuildSystem(confs[i], files, info, platform) == Ok(bss[i]))
      && (err.None? <==> |bss| == |confs|)
      && (err.Some? ==> ConfigBuildSystem(confs[|bss|], files, info, platform) == Err(err.value))
    decreases |confs|
  {
    if confs != [] {
      TranslateConfigsSpec(confs[1..], files, info, platform);
    }
  }
}
