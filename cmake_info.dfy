/** The configure command line built from the project's settings
    (`CmakeInfo.to_command` and its two converters). Settings values arrive
    already expanded; dictionaries are sequences of pairs in insertion order. */
module CmakeInfo {
  import opened Strings

  /** The JSON values a `command_line_overrides` entry can hold. */
  datatype OverrideValue =
    | BoolValue(b: bool)
    | StrValue(s: string)
    | IntValue(i: int)
    | NoneValue

  /** Booleans become ON/OFF; everything else is rendered by `str`. */
  function RenderOverride(v: OverrideValue): string {
    match v
    case BoolValue(b) => if b then "ON" else "OFF"
    case StrValue(s) => s
    case IntValue(i) => IntToString(i)
    case NoneValue => "None"
  }

  /** The `-D` arguments for the overrides, in dictionary order. */
  function OverrideArgs(overrides: seq<(string, OverrideValue)>): seq<string> {
    if overrides == [] then []
    else
      var (k, v) := overrides[|overrides| - 1];
      OverrideArgs(overrides[..|overrides| - 1]) + ["-D", k + "=" + RenderOverride(v)]
  }

  /** `__convert_overrides_to_list` */
  method ConvertOverridesToList(overrides: seq<(string, OverrideValue)>) returns (result: seq<string>)
    ensures result == OverrideArgs(overrides)
  {
    result := [];
    for i := 0 to |overrides|
      invariant result == OverrideArgs(overrides[..i])
    {
      var (k, val) := overrides[i];
      var v := RenderOverride(val);
      result := result + ["-D"];
      result := result + [k + "=" + v];
      assert overrides[..i + 1][..i] == overrides[..i];
    }
    assert overrides[..|overrides|] == overrides;
  }

  /** Exactly two arguments per override: `-D`, then `key=value`. */
  lemma {:induction false} OverrideArgsShape(overrides: seq<(string, OverrideValue)>)
    ensures |OverrideArgs(overrides)| == 2 * |overrides|
    ensures forall k :: 0 <= k < |overrides| ==>
              OverrideArgs(overrides)[2 * k] == "-D"
              && OverrideArgs(overrides)[2 * k + 1] == overrides[k].0 + "=" + RenderOverride(overrides[k].1)
  {
    if overrides != [] {
      var init := overrides[..|overrides| - 1];
      OverrideArgsShape(init);
      forall k | 0 <= k < |init|
        ensures overrides[k] == init[k]
      {
      }
    }
  }

  function ToolsetItems(toolset: seq<(string, string)>): (items: seq<string>)
    ensures |items| == |toolset|
    ensures forall k :: 0 <= k < |toolset| ==> items[k] == toolset[k].0 + "=" + toolset[k].1
  {
    seq(|toolset|, k requires 0 <= k < |toolset| => toolset[k].0 + "=" + toolset[k].1)
  }

  /** `__convert_toolset_to_str`: `-T` and the comma-joined `key=value` items. */
  function ConvertToolsetToStr(toolset: seq<(string, string)>): string {
    "-T" + JoinWith(',', ToolsetItems(toolset))
  }

  /** The toolset argument can be read back: after `-T`, splitting on commas gives
      the `key=value` items in order, as long as no key or value has a comma. */
  lemma ToolsetRoundTrip(toolset: seq<(string, string)>)
    requires toolset != []
    requires forall k :: 0 <= k < |toolset| ==> ',' !in toolset[k].0 && ',' !in toolset[k].1
    ensures ConvertToolsetToStr(toolset)[..2] == "-T"
    ensures SplitOn(ConvertToolsetToStr(toolset)[2..], ',') == ToolsetItems(toolset)
  {
    var items := ToolsetItems(toolset);
    forall k | 0 <= k < |items|
      ensures ',' !in items[k]
    {
      assert items[k] == toolset[k].0 + "=" + toolset[k].1;
    }
    assert ConvertToolsetToStr(toolset)[2..] == JoinWith(',', items);
    SplitJoin(items, ',');
  }

  /** The settings `to_command` reads. An empty generator or platform stands for
      an unset (or falsy) setting. */
  datatype ConfigureSettings = ConfigureSettings(
    cmakeBinary: string,
    buildFolder: string,
    generator: string,
    platform: string,
    toolset: seq<(string, string)>,
    overrides: seq<(string, OverrideValue)>)

  /** `CmakeInfo.to_command` */
  function ToCommand(info: ConfigureSettings): seq<string> {
    [info.cmakeBinary, ".", "-B", info.buildFolder]
    + (if info.generator != "" then ["-G", info.generator] else [])
    + (if info.platform != "" then ["-A", info.platform] else [])
    + (if info.toolset != [] then [ConvertToolsetToStr(info.toolset)] else [])
    + (if info.overrides != [] then OverrideArgs(info.overrides) else [])
  }

  /** The configure command: source `.` and `-B <build folder>` first, then
      `-G <generator>`, `-A <platform>` and the `-T` argument, each only for a
      set value and each right after the ones before it, and the override
      arguments last. */
  lemma ToCommandShape(info: ConfigureSettings)
    ensures var cmd := ToCommand(info);
      var g := if info.generator != "" then 2 else 0;
      var a := if info.platform != "" then 2 else 0;
      var t := if info.toolset != [] then 1 else 0;
      && |cmd| == 4 + g + a + t + 2 * |info.overrides|
      && cmd[..4] == [info.cmakeBinary, ".", "-B", info.buildFolder]
      && (info.generator != "" ==> cmd[4..6] == ["-G", info.generator])
      && (info.platform != "" ==> cmd[4 + g..6 + g] == ["-A", info.platform])
      && (info.toolset != [] ==> cmd[4 + g + a] == ConvertToolsetToStr(info.toolset))
      && cmd[4 + g + a + t..] == OverrideArgs(info.overrides)
  {
    OverrideArgsShape(info.overrides);
    var head := [info.cmakeBinary, ".", "-B", info.buildFolder];
    var gen := if info.generator != "" then ["-G", info.generator] else [];
    var plat := if info.platform != "" then ["-A", info.platform] else [];
    var tool := if info.toolset != [] then [ConvertToolsetToStr(info.toolset)] else [];
    var over := if info.overrides != [] then OverrideArgs(info.overrides) else [];
    assert over == OverrideArgs(info.overrides);
    var cmd := ToCommand(info);
    var hg := head + gen;
    var hgp := hg + plat;
    var hgpt := hgp + tool;
    assert cmd == hgpt + over;
    assert cmd[..|hgpt|] == hgpt && cmd[|hgpt|..] == over;
    assert hgpt[..|hgp|] == hgp && hgpt[|hgp|..] == tool;
    assert hgp[..|hg|] == hg && hgp[|hg|..] == plat;
    assert hg[..4] == head && hg[4..] == gen;
  }
}
