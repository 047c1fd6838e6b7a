/** Platform-aware settings lookup (`get_setting_value`, `get_setting`). */
module Settings {
  import opened Wrappers
  import opened Json

  /** The three values of `sublime.platform()`. */
  datatype Platform = Linux | Osx | Windows

  function PlatformName(p: Platform): string {
    match p
    case Linux => "linux"
    case Osx => "osx"
    case Windows => "windows"
  }

  /** The section a platform may override settings in: `the_dict[platform]`. */
  function PlatformSection(theDict: map<string, Value>, platform: Platform): Option<Value> {
    var p := PlatformName(platform);
    if p in theDict then Some(theDict[p]) else None
  }

  /** `get_setting_value`: a key in the current platform's section wins over the
      same key at top level, which wins over the default. Subscripting a platform
      entry that is not a dictionary is a `TypeError`, which the code does not catch. */
  function GetSettingValue(theDict: map<string, Value>, key: string, default: Value, platform: Platform)
    : (r: Result<Value, PyError>)
    ensures (PlatformSection(theDict, platform).Some? && !PlatformSection(theDict, platform).value.Obj?)
              ==> r == Err(TypeError)
    ensures (PlatformSection(theDict, platform).Some? && PlatformSection(theDict, platform).value.Obj?
              && key in PlatformSection(theDict, platform).value.fields)
              ==> r == Ok(PlatformSection(theDict, platform).value.fields[key])
    ensures (PlatformSection(theDict, platform).None?
              || (PlatformSection(theDict, platform).value.Obj? && key !in PlatformSection(theDict, platform).value.fields))
              ==> r == Ok(if key in theDict then theDict[key] else default)
  {
    match PlatformSection(theDict, platform)
    case Some(Obj(section)) =>
      if key in section then Ok(section[key])
      else Ok(if key in theDict then theDict[key] else default)
    case Some(_) => Err(TypeError)
    case None => Ok(if key in theDict then theDict[key] else default)
  }

  /** `get_setting`: the view's "CMakeBuilder" dictionary, when the view has one,
      is consulted first and its answer used unless it is null; otherwise the
      package settings are consulted with the caller's default. */
  function GetSetting(viewSettings: Option<map<string, Value>>, packageSettings: map<string, Value>,
                      key: string, default: Value, platform: Platform): Result<Value, PyError>
  {
    match viewSettings
    case Some(vs) =>
      (match GetSettingValue(vs, key, Null, platform)
       case Err(e) => Err(e)
       case Ok(v) => if v != Null then Ok(v) else GetSettingValue(packageSettings, key, default, platform))
    case None => GetSettingValue(packageSettings, key, default, platform)
  }

  /** Whatever the view's settings answer (from its platform section or its
      top level), a non-null answer overrides the package settings, and a
      failure to read the view's settings is the outcome. */
  lemma ViewSettingOverridesPackage(vs: map<string, Value>, packageSettings: map<string, Value>,
                                    key: string, default: Value, platform: Platform)
    ensures var viewValue := GetSettingValue(vs, key, Null, platform);
      && (viewValue.Ok? && viewValue.value != Null ==> GetSetting(Some(vs), packageSettings, key, default, platform) == viewValue)
      && (viewValue.Err? ==> GetSetting(Some(vs), packageSettings, key, default, platform) == viewValue)
  {
  }

  /** A view whose settings answer null (the key is in neither its platform
      section nor its top level, or is null there) leaves the answer to the
      package settings, exactly as when there is no view. */
  lemma ViewWithoutKeyDefersToPackage(vs: map<string, Value>, packageSettings: map<string, Value>,
                                      key: string, default: Value, platform: Platform)
    ensures GetSettingValue(vs, key, Null, platform) == Ok(Null)
            ==> GetSetting(Some(vs), packageSettings, key, default, platform)
                == GetSetting(None, packageSettings, key, default, platform)
    ensures (PlatformSection(vs, platform).None?
             || (PlatformSection(vs, platform).value.Obj? && key !in PlatformSection(vs, platform).value.fields))
            && (key !in vs || vs[key] == Null)
            ==> GetSettingValue(vs, key, Null, platform) == Ok(Null)
  {
  }
}
