/** The configure command's translation state (`CmakeConfigureCommand`): the
    build systems it collects from a codemodel reply, the error that stopped it,
    and the merge of its build systems into the window's project data. */
module Configure {
  import opened Wrappers
  import opened Json
  import opened Settings
  import opened Codemodel

  /** The build systems collected so far in front of a translation's outcome. */
  function PrependSystems(done: seq<BuildSystem>, t: (seq<BuildSystem>, Option<PyError>)): (seq<BuildSystem>, Option<PyError>) {
    (done + t.0, t.1)
  }

  lemma PrependSystemsStep(done: seq<BuildSystem>, bs: BuildSystem, t: (seq<BuildSystem>, Option<PyError>))
    ensures PrependSystems(done, PrependSystems([bs], t)) == PrependSystems(done + [bs], t)
  {
    assert done + ([bs] + t.0) == done + [bs] + t.0;
  }

  lemma PrependStep<T, E>(done: seq<T>, first: seq<T>, r: Result<seq<T>, E>)
    ensures Prepend(done, Prepend(first, r)) == Prepend(done + first, r)
  {
    if r.Ok? {
      assert done + (first + r.value) == done + first + r.value;
    }
  }

  lemma PrependNil<T, E>(r: Result<seq<T>, E>)
    ensures Prepend([], r) == r
  {
    if r.Ok? {
      assert [] + r.value == r.value;
    }
  }

  lemma PrependToNil<T>(xs: seq<T>)
    ensures Prepend<T, PyError>(xs, Ok([])) == Ok(xs)
  {
    assert xs + [] == xs;
  }

  class ConfigureCommand {
    /** The `CmakeInfo` read when the command was enabled. */
    var info: ConfigureInfo
    /** The build systems of the last translated codemodel. */
    var buildSystems: seq<BuildSystem>
    /** The exception that stopped the last translation, if any. */
    var error: Option<PyError>

    constructor(info: ConfigureInfo)
      ensures this.info == info && buildSystems == [] && error == None
    {
      this.info := info;
      buildSystems := [];
      error := None;
    }

    /** `__handle_target`: appends the target's variants to `variants`. */
    method HandleTarget(variants: seq<Variant>, data: TargetDoc, platform: Platform) returns (r: Result<seq<Variant>, PyError>)
      ensures r == Prepend(variants, TargetVariants(data, platform))
    {
      if data.name.None? {
        return Err(KeyError("name"));
      }
      var name := data.name.value;
      var out := variants + [BuildVariant(name)];
      if data.kind.None? {
        return Err(KeyError("type"));
      }
      if data.kind.value == "EXECUTABLE" {
        if data.artifacts.None? {
          return Err(KeyError("artifacts"));
        }
        if data.nameOnDisk.None? {
          return Err(KeyError("nameOnDisk"));
        }
        var matching := MatchingArtifacts(data.artifacts.value, data.nameOnDisk.value);
        if matching.Err? {
          return Err(matching.error);
        }
        var paths := matching.value;
        if |paths| == 0 || |paths| > 1 {
          return Ok(out);
        }
        out := out + [RunVariant(name, paths[0])];
        assert out == variants + [BuildVariant(name), RunVariant(name, paths[0])];
        if platform == Linux {
          out := out + [DebugVariant("GDB", name, paths[0])];
          assert out == variants + ([BuildVariant(name), RunVariant(name, paths[0])] + [DebugVariant("GDB", name, paths[0])]);
        } else if platform == Osx {
          out := out + [DebugVariant("LLDB", name, paths[0])];
          assert out == variants + ([BuildVariant(name), RunVariant(name, paths[0])] + [DebugVariant("LLDB", name, paths[0])]);
        }
      }
      return Ok(out);
    }

    /** The body of `__handle_response_codemodel`'s loop: one configuration's
        build system, with every target's variants and then `ctest`. */
    method HandleConfiguration(configuration: ConfigurationDoc, files: ReplyFiles, platform: Platform)
      returns (r: Result<BuildSystem, PyError>)
      ensures r == ConfigBuildSystem(configuration, files, info, platform)
    {
      if configuration.name.None? {
        return Err(KeyError("name"));
      }
      var name := configuration.name.value;
      if name == "" {
        name := "Default";
      }
      var generator := if info.generator != "" then Some(info.generator) else None;
      if configuration.targets.None? {
        return Err(KeyError("targets"));
      }
      var targets := configuration.targets.value;
      var variants: seq<Variant> := [];
      var j := 0;
      assert targets[j..] == targets;
      PrependNil(TargetsVariants(targets, files, platform));
      while j < |targets|
        invariant 0 <= j <= |targets|
        invariant TargetsVariants(targets, files, platform) == Prepend(variants, TargetsVariants(targets[j..], files, platform))
      {
        var target := targets[j];
        assert targets[j..][0] == target && targets[j..][1..] == targets[j + 1..];
        var doc := LoadTargetDoc(target, files);
        if doc.Err? {
          return Err(doc.error);
        }
        var next := HandleTarget(variants, doc.value, platform);
        if next.Err? {
          return Err(next.error);
        }
        PrependStep(variants, TargetVariants(doc.value, platform).value, TargetsVariants(targets[j + 1..], files, platform));
        variants := next.value;
        j := j + 1;
      }
      assert targets[j..] == [];
      PrependToNil(variants);
      variants := variants + [CtestVariant];
      return Ok(BuildSystem(name, name, info.unexpandedBuildFolder, info.env, generator, variants));
    }

    /** `__handle_response_codemodel`: rebuilds `buildSystems` from the codemodel,
        one build system per configuration in order, and records the first error. */
    method HandleResponseCodemodel(data: CodemodelDoc, files: ReplyFiles, platform: Platform)
      modifies this
      ensures info == old(info)
      ensures (buildSystems, error) == TranslateCodemodel(data, files, info, platform)
    {
      error := None;
      buildSystems := [];
      if data.configurations.None? {
        error := Some(KeyError("configurations"));
        return;
      }
      var configurations := data.configurations.value;
      var i := 0;
      assert configurations[i..] == configurations;
      assert buildSystems + TranslateConfigs(configurations, files, info, platform).0
             == TranslateConfigs(configurations, files, info, platform).0;
      while i < |configurations|
        invariant 0 <= i <= |configurations|
        invariant info == old(info) && error == None
        invariant TranslateConfigs(configurations, files, info, platform)
                  == PrependSystems(buildSystems, TranslateConfigs(configurations[i..], files, info, platform))
      {
        assert configurations[i..][0] == configurations[i] && configurations[i..][1..] == configurations[i + 1..];
        var r := HandleConfiguration(configurations[i], files, platform);
        if r.Err? {
          error := Some(r.error);
          assert buildSystems + [] == buildSystems;
          return;
        }
        PrependSystemsStep(buildSystems, r.value, TranslateConfigs(configurations[i + 1..], files, info, platform));
        buildSystems := buildSystems + [r.value];
        i := i + 1;
      }
      assert configurations[i..] == [];
      assert buildSystems + [] == buildSystems;
    }

    /** `__write_project_data`: after a failed translation nothing is written and
        the recorded error is reported; otherwise the merged project data is. */
    method WriteProjectData(project: map<string, Value>) returns (written: Result<map<string, Value>, PyError>)
      ensures error.Some? ==> written == Err(error.value)
      ensures error.None? ==> written == MergeProjectData(project, buildSystems)
    {
      if error.Some? {
        return Err(error.value);
      }
      written := MergeProjectData(project, buildSystems);
    }
  }

  /** A project build system we generated: its `target` is "cmake_build". */
  predicate IsOurs(d: Value)
    requires d.Obj?
  {
    "target" in d.fields && d.fields["target"] == Str("cmake_build")
  }

  /** `filter(is_not_generated_by_us, entries)`, forced by `list`: every entry
      must be a dictionary (`d.get`), and ours are dropped. */
  function KeepForeign(entries: seq<Value>): Result<seq<Value>, PyError> {
    if entries == [] then Ok([])
    else if !entries[0].Obj? then Err(AttributeError("get"))
    else Prepend(if IsOurs(entries[0]) then [] else [entries[0]], KeepForeign(entries[1..]))
  }

  /** `data.get("build_systems", [])` iterated: a list yields its entries, an
      empty dictionary or string nothing; a non-empty one yields strings, which
      have no `get`; other values are not iterable. */
  function ExistingBuildSystems(project: map<string, Value>): Result<seq<Value>, PyError> {
    if "build_systems" !in project then Ok([])
    else match project["build_systems"]
      case Arr(items) => Ok(items)
      case Obj(m) => if m == map[] then Ok([]) else Err(AttributeError("get"))
      case Str(s) => if s == "" then Ok([]) else Err(AttributeError("get"))
      case _ => Err(TypeError)
  }

  function GeneratedValues(generated: seq<BuildSystem>): seq<Value> {
    seq(|generated|, i requires 0 <= i < |generated| => generated[i].ToValue())
  }

  /** The new project data: the foreign build systems, then the generated ones. */
  function MergeProjectData(project: map<string, Value>, generated: seq<BuildSystem>): Result<map<string, Value>, PyError> {
    match ExistingBuildSystems(project)
    case Err(e) => Err(e)
    case Ok(entries) =>
      match KeepForeign(entries)
      case Err(e) => Err(e)
      case Ok(kept) => Ok(project["build_systems" := Arr(kept + GeneratedValues(generated))])
  }

  /** The filter works entry by entry: on a concatenation it is the
      concatenation of the filtered parts, so kept entries keep their order. */
  lemma {:induction false} KeepForeignAppend(a: seq<Value>, b: seq<Value>)
    ensures KeepForeign(a + b) == (match KeepForeign(a) case Err(e) => Err(e) case Ok(ka) => Prepend(ka, KeepForeign(b)))
    decreases |a|
  {
    if a == [] {
      assert a + b == b;
      PrependNil(KeepForeign(b));
    } else {
      assert (a + b)[0] == a[0] && (a + b)[1..] == a[1..] + b;
      KeepForeignAppend(a[1..], b);
      if a[0].Obj? && KeepForeign(a[1..]).Ok? {
        PrependStep(if IsOurs(a[0]) then [] else [a[0]], KeepForeign(a[1..]).value, KeepForeign(b));
      }
    }
  }

  /** On one entry the filter keeps a foreign dictionary, drops ours, and fails on anything else. */
  lemma KeepForeignSingle(v: Value)
    ensures KeepForeign([v]) == if !v.Obj? then Err(AttributeError("get")) else if IsOurs(v) then Ok([]) else Ok([v])
  {
    assert [v][1..] == [];
    if v.Obj? {
      PrependToNil(if IsOurs(v) then [] else [v]);
    }
  }

  /** The filter succeeds exactly when every entry is a dictionary, and then
      keeps exactly the entries that are not ours, entries without a `target`
      included. */
  lemma {:induction false} KeepForeignMembers(entries: seq<Value>)
    ensures KeepForeign(entries).Ok? <==> forall i :: 0 <= i < |entries| ==> entries[i].Obj?
    ensures KeepForeign(entries).Ok? ==>
              forall v :: v in KeepForeign(entries).value <==> v in entries && !IsOurs(v)
    decreases |entries|
  {
    if entries != [] {
      KeepForeignMembers(entries[1..]);
      if entries[0].Obj? {
        forall i | 1 <= i < |entries| ensures entries[i] == entries[1..][i - 1] { }
        assert entries == [entries[0]] + entries[1..];
      }
    }
  }

  /** A kept list contains none of ours, so filtering it again keeps it whole. */
  lemma {:induction false} KeepForeignOfKept(entries: seq<Value>)
    requires KeepForeign(entries).Ok?
    ensures KeepForeign(KeepForeign(entries).value) == KeepForeign(entries)
    decreases |entries|
  {
    if entries != [] {
      var rest := KeepForeign(entries[1..]).value;
      KeepForeignOfKept(entries[1..]);
      if !IsOurs(entries[0]) {
        assert ([entries[0]] + rest)[1..] == rest;
        assert ([entries[0]] + rest)[0] == entries[0];
      } else {
        PrependNil(KeepForeign(entries[1..]));
      }
    }
  }

  /** Our generated entries are all dropped by the filter. */
  lemma {:induction false} KeepForeignOfGenerated(generated: seq<BuildSystem>)
    ensures KeepForeign(GeneratedValues(generated)) == Ok([])
    decreases |generated|
  {
    if generated != [] {
      KeepForeignOfGenerated(generated[1..]);
      assert GeneratedValues(generated)[1..] == GeneratedValues(generated[1..]);
      assert IsOurs(GeneratedValues(generated)[0]);
      PrependNil(KeepForeign(GeneratedValues(generated[1..])));
    }
  }

  /** The merge fails only as reading the old build systems fails. When it
      succeeds, it changes the `build_systems` entry alone: the foreign entries,
      in order, followed by one entry per generated build system, in order. */
  lemma MergeProjectDataSpec(project: map<string, Value>, generated: seq<BuildSystem>)
    ensures MergeProjectData(project, generated).Ok? <==>
              ExistingBuildSystems(project).Ok? && KeepForeign(ExistingBuildSystems(project).value).Ok?
    ensures MergeProjectData(project, generated).Ok? ==>
              var p := MergeProjectData(project, generated).value;
              && p.Keys == project.Keys + {"build_systems"}
              && (forall k :: k in project && k != "build_systems" ==> p[k] == project[k])
              && p["build_systems"].Arr?
              && var items := p["build_systems"].items;
                 var kept := KeepForeign(ExistingBuildSystems(project).value).value;
                 && |items| == |kept| + |generated|
                 && items[..|kept|] == kept
                 && (forall i :: 0 <= i < |generated| ==> items[|kept| + i] == generated[i].ToValue())
  {
  }

  /** Writing the same build systems twice gives the project data of writing them once. */
  lemma MergeProjectDataIdempotent(project: map<string, Value>, generated: seq<BuildSystem>)
    requires MergeProjectData(project, generated).Ok?
    ensures MergeProjectData(MergeProjectData(project, generated).value, generated) == MergeProjectData(project, generated)
  {
    var kept := KeepForeign(ExistingBuildSystems(project).value).value;
    var gens := GeneratedValues(generated);
    var p := MergeProjectData(project, generated).value;
    assert ExistingBuildSystems(p) == Ok(kept + gens);
    KeepForeignAppend(kept, gens);
    KeepForeignOfKept(ExistingBuildSystems(project).value);
    KeepForeignOfGenerated(generated);
    assert kept + [] == kept;
    assert p["build_systems" := Arr(kept + gens)] == p;
  }
}
