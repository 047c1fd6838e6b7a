/** The `Generator` family: which log syntax and which diagnostic pattern the
    build output panel uses, chosen by the CMake generator's name
    (`make_generator` and the `Generator` subclasses), and the build command that
    uses them (`CmakeBuildCommand.run`). The patterns are kept as opaque text. */
module Generators {
  import opened Wrappers
  import opened Strings
  import opened Settings
  import opened Json

  datatype Generator =
    | NinjaGenerator
    | UnixMakefilesGenerator
    | NMakeMakefilesGenerator
    | VisualStudioGenerator

  /** Subscripting a parsed JSON value with a string key: a missing key is a
      `KeyError`, and a value that is not a dictionary cannot be subscripted so. */
  function Subscript(v: Value, key: string): (r: Result<Value, PyError>)
    ensures r.Ok? <==> v.Obj? && key in v.fields
    ensures r.Ok? ==> r.value == v.fields[key]
    ensures v.Obj? && key !in v.fields ==> r == Err(KeyError(key))
    ensures !v.Obj? ==> r == Err(TypeError)
  {
    match v
    case Obj(fields) => if key in fields then Ok(fields[key]) else Err(KeyError(key))
    case _ => Err(TypeError)
  }

  /** `load_reply(build_folder)["cmake"]["generator"]["name"]`, given what
      `load_reply` produced: the parsed index document or the error it raised. */
  function ReplyGeneratorName(reply: Result<Value, PyError>): (r: Result<Value, PyError>)
    ensures reply.Err? ==> r == reply
    ensures r.Ok? <==> reply.Ok? && reply.value.Obj? && "cmake" in reply.value.fields
                       && reply.value.fields["cmake"].Obj? && "generator" in reply.value.fields["cmake"].fields
                       && reply.value.fields["cmake"].fields["generator"].Obj?
                       && "name" in reply.value.fields["cmake"].fields["generator"].fields
    ensures r.Ok? ==> r.value == reply.value.fields["cmake"].fields["generator"].fields["name"]
  {
    match reply
    case Err(e) => Err(e)
    case Ok(index) =>
      match Subscript(index, "cmake")
      case Err(e) => Err(e)
      case Ok(cmake) =>
        match Subscript(cmake, "generator")
        case Err(e) => Err(e)
        case Ok(generator) => Subscript(generator, "name")
  }

  /** The `elif` chain of `make_generator` for a given generator name. */
  function GeneratorNamed(g: string): (r: Result<Generator, PyError>)
    ensures r == Ok(NinjaGenerator) <==> g == "Ninja"
    ensures r == Ok(NMakeMakefilesGenerator) <==> g == "NMake Makefiles"
    ensures r == Ok(VisualStudioGenerator) <==> StartsWith(g, "Visual Studio")
    ensures r == Ok(UnixMakefilesGenerator) <==> g == "Unix Makefiles"
    ensures r.Err? ==> r.error == KeyError("unknown generator")
  {
    if g == "Ninja" then Ok(NinjaGenerator)
    else if g == "NMake Makefiles" then
      assert !StartsWith(g, "Visual Studio") by { assert g[..13][0] == 'N'; }
      Ok(NMakeMakefilesGenerator)
    else if StartsWith(g, "Visual Studio") then
      assert g != "Unix Makefiles" by { assert g[0] == g[..13][0] == 'V'; }
      Ok(VisualStudioGenerator)
    else if g == "Unix Makefiles" then Ok(UnixMakefilesGenerator)
    else Err(KeyError("unknown generator"))
  }

  /** `make_generator` as written: without a name it reads the name from the
      reply, but the `elif` chain is then skipped and the final `raise` runs. */
  function MakeGeneratorAsWritten(reply: Result<Value, PyError>, generator: Option<string>): Result<Generator, PyError> {
    match generator
    case Some(g) => GeneratorNamed(g)
    case None =>
      match ReplyGeneratorName(reply)
      case Err(e) => Err(e)
      case Ok(_) => Err(KeyError("unknown generator"))
  }

  /** As written, a missing name never yields a generator: the reply's error
      when it cannot be read, and otherwise "unknown generator", even for a
      reply naming "Ninja". */
  lemma MakeGeneratorAsWrittenIgnoresReply(reply: Result<Value, PyError>)
    ensures MakeGeneratorAsWritten(reply, None).Err?
    ensures ReplyGeneratorName(reply).Err? ==> MakeGeneratorAsWritten(reply, None) == Err(ReplyGeneratorName(reply).error)
    ensures ReplyGeneratorName(reply).Ok? ==> MakeGeneratorAsWritten(reply, None) == Err(KeyError("unknown generator"))
    ensures var ninja := Ok(Obj(map["cmake" := Obj(map["generator" := Obj(map["name" := Str("Ninja")])])]));
      MakeGeneratorAsWritten(ninja, None) == Err(KeyError("unknown generator"))
      && GeneratorNamed("Ninja") == Ok(NinjaGenerator)
  {
    var ninja: Result<Value, PyError> := Ok(Obj(map["cmake" := Obj(map["generator" := Obj(map["name" := Str("Ninja")])])]));
    assert ReplyGeneratorName(ninja) == Ok(Str("Ninja"));
  }

  /** `make_generator` as evidently intended: the name read from the reply goes
      through the same chain as a given one. A reply name that is not a string
      cannot be compared equal to any of the names and has no `startswith`. */
  function MakeGenerator(reply: Result<Value, PyError>, generator: Option<string>): Result<Generator, PyError> {
    match generator
    case Some(g) => GeneratorNamed(g)
    case None =>
      match ReplyGeneratorName(reply)
      case Err(e) => Err(e)
      case Ok(Str(g)) => GeneratorNamed(g)
      case Ok(_) => Err(AttributeError("startswith"))
  }

  /** A given name is used as is; a missing one is read from the reply, whose
      errors propagate, and then chooses exactly as the same name given
      directly would. */
  lemma MakeGeneratorReadsReply(reply: Result<Value, PyError>, generator: Option<string>)
    ensures generator.Some? ==> MakeGenerator(reply, generator) == GeneratorNamed(generator.value)
    ensures generator.None? && ReplyGeneratorName(reply).Err? ==> MakeGenerator(reply, generator) == Err(ReplyGeneratorName(reply).error)
    ensures generator.None? && ReplyGeneratorName(reply).Ok? && ReplyGeneratorName(reply).value.Str?
            ==> MakeGenerator(reply, generator) == MakeGenerator(reply, Some(ReplyGeneratorName(reply).value.s))
    ensures generator.None? && ReplyGeneratorName(reply).Ok? && !ReplyGeneratorName(reply).value.Str?
            ==> MakeGenerator(reply, generator) == Err(AttributeError("startswith"))
  {
  }

  /** `syntax(name)`: the package resource path of a syntax definition. */
  function SyntaxPath(name: string): string {
    "Packages/CMakeBuilder/Syntax/" + name + ".sublime-syntax"
  }

  function Syntax(g: Generator, platform: Platform): string {
    match g
    case NinjaGenerator => if platform == Windows then SyntaxPath("Ninja+CL") else SyntaxPath("Ninja")
    case UnixMakefilesGenerator => SyntaxPath("Make")
    case NMakeMakefilesGenerator => SyntaxPath("Make")
    case VisualStudioGenerator => SyntaxPath("Visual_Studio")
  }

  const MsvcPattern: string := @"^(.+)\((\d+)\):() (.+)$"
  const GccPattern: string := @"(.+[^:]):(\d+):(\d+):\s*(.+)$"
  const VisualStudioPattern: string := @"^\s*(.+)\((\d+),?(\d*)\)\s*:\s*(.+)$"

  /** `regex()`. The NMake class names its pattern `file_regex`, so the base
      class's `regex` runs and raises `NotImplementedError`. */
  function Regex(g: Generator, platform: Platform): (r: Result<string, PyError>)
    ensures r.Err? <==> g == NMakeMakefilesGenerator
    ensures r.Err? ==> r.error == NotImplementedError
  {
    match g
    case NinjaGenerator => Ok(if platform == Windows then MsvcPattern else GccPattern)
    case UnixMakefilesGenerator => Ok(GccPattern)
    case NMakeMakefilesGenerator => Err(NotImplementedError)
    case VisualStudioGenerator => Ok(VisualStudioPattern)
  }

  /** What `CmakeBuildCommand.run` hands to the exec panel. */
  datatype BuildExec = BuildExec(cmd: seq<string>, syntax: string, fileRegex: string)

  /** `CmakeBuildCommand.run`: `cmake --build . --config <config>`, then
      `--target <target>` when a non-empty target is given, shown with the
      generator's syntax and diagnostic pattern. The generator is resolved by
      `make_generator` as intended; `reply` is what loading the reply index
      of the working directory produces. */
  function BuildCommand(cmakeBinary: string, config: string, buildTarget: Option<string>,
                        reply: Result<Value, PyError>, generator: Option<string>, platform: Platform)
    : Result<BuildExec, PyError>
  {
    match MakeGenerator(reply, generator)
    case Err(e) => Err(e)
    case Ok(gen) =>
      var cmd := [cmakeBinary, "--build", ".", "--config", config]
                 + (if buildTarget.Some? && buildTarget.value != "" then ["--target", buildTarget.value] else []);
      match Regex(gen, platform)
      case Err(e) => Err(e)
      case Ok(pattern) => Ok(BuildExec(cmd, Syntax(gen, platform), pattern))
  }

  /** The generator name a build resolves: the given one, or the reply's. */
  function ResolvedName(reply: Result<Value, PyError>, generator: Option<string>): Result<Value, PyError> {
    if generator.Some? then Ok(Str(generator.value)) else ReplyGeneratorName(reply)
  }

  /** A build can be started exactly when the resolved generator name is one of
      the known names other than NMake's; its command line is
      `<cmake> --build . --config <config>`, followed by `--target <target>`
      exactly when a non-empty target is given. */
  lemma BuildCommandAvailability(cmakeBinary: string, config: string, buildTarget: Option<string>,
                                 reply: Result<Value, PyError>, generator: Option<string>, platform: Platform)
    ensures var r := BuildCommand(cmakeBinary, config, buildTarget, reply, generator, platform);
      var name := ResolvedName(reply, generator);
      && (r.Ok? <==> (name.Ok? && name.value.Str? && name.value.s != "NMake Makefiles"
                       && (name.value.s in {"Ninja", "Unix Makefiles"} || StartsWith(name.value.s, "Visual Studio"))))
      && (r.Ok? ==> r.value.cmd[..5] == [cmakeBinary, "--build", ".", "--config", config])
      && (r.Ok? && buildTarget.Some? && buildTarget.value != "" ==>
            |r.value.cmd| == 7 && r.value.cmd[5..] == ["--target", buildTarget.value])
      && (r.Ok? && (buildTarget.None? || buildTarget.value == "") ==> |r.value.cmd| == 5)
      && (r.Ok? ==> r.value.fileRegex != [])
  {
    MakeGeneratorReadsReply(reply, generator);
  }
}
