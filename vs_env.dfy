/** Visual Studio environment helpers: reading the `set` output that
    `vcvarsall.bat` leaves behind (`parse_vcvarsall` once the text is given),
    the architecture names it expects (`cmake_arch_to_vs_arch`) and the major
    version named by a generator (`get_vs_major_version_from_generator_str`). */
module VsEnv {
  import opened Wrappers
  import opened Strings

  /** The environment variables the plugin keeps, lower-cased. */
  const EnvKeys: set<string> := {"include", "lib", "libpath", "path"}

  /** The argument passed to `vcvarsall.bat`: one architecture when host and
      target agree, `host_target` otherwise. */
  function VcvarsallArg(hostArchitecture: string, targetArchitecture: string): string {
    if hostArchitecture == targetArchitecture then hostArchitecture
    else hostArchitecture + "_" + targetArchitecture
  }

  /** For architecture names without '_' (such as x86, amd64 and arm), the
      argument names both architectures: split at '_', it gives back the host
      alone when the two agree and the host then the target otherwise. */
  lemma VcvarsallArgSplits(hostArchitecture: string, targetArchitecture: string)
    requires '_' !in hostArchitecture && '_' !in targetArchitecture
    ensures SplitOn(VcvarsallArg(hostArchitecture, targetArchitecture), '_')
            == if hostArchitecture == targetArchitecture then [hostArchitecture]
               else [hostArchitecture, targetArchitecture]
  {
    if hostArchitecture == targetArchitecture {
      assert JoinWith('_', [hostArchitecture]) == hostArchitecture;
      SplitJoin([hostArchitecture], '_');
    } else {
      JoinWithCons('_', hostArchitecture, [targetArchitecture]);
      assert [hostArchitecture] + [targetArchitecture] == [hostArchitecture, targetArchitecture];
      assert JoinWith('_', [targetArchitecture]) == targetArchitecture;
      SplitJoin([hostArchitecture, targetArchitecture], '_');
    }
  }

  lemma {:induction false} NonSpaceSurvivesDropSpace(s: string, c: char)
    requires c in s && !IsSpace(c)
    ensures c in DropSpace(s)
    decreases |s|
  {
    if |s| > 0 && IsSpace(s[0]) {
      assert c in s[1..] by {
        var i :| 0 <= i < |s| && s[i] == c;
        assert i > 0 && s[1..][i - 1] == c;
      }
      NonSpaceSurvivesDropSpace(s[1..], c);
    }
  }

  lemma {:induction false} NonSpaceSurvivesDropSpaceEnd(s: string, c: char)
    requires c in s && !IsSpace(c)
    ensures c in DropSpaceEnd(s)
    decreases |s|
  {
    if |s| > 0 && IsSpace(s[|s| - 1]) {
      assert c in s[..|s| - 1] by {
        var i :| 0 <= i < |s| && s[i] == c;
        assert i < |s| - 1 && s[..|s| - 1][i] == c;
      }
      NonSpaceSurvivesDropSpaceEnd(s[..|s| - 1], c);
    }
  }

  lemma EqualsSurvivesStrip(line: string)
    requires '=' in line
    ensures '=' in Strip(line)
  {
    NonSpaceSurvivesDropSpace(line, '=');
    NonSpaceSurvivesDropSpaceEnd(DropSpace(line), '=');
  }

  /** `line.strip().split('=', 1)` for a line with '=': the text before the
      first '=' and the text after it. */
  function KeyValueOf(line: string): (kv: (string, string))
    requires '=' in line
    ensures kv.0 + "=" + kv.1 == Strip(line) && '=' !in kv.0
  {
    EqualsSurvivesStrip(line);
    SplitFirst(Strip(line), '=')
  }

  /** The value with one trailing separator removed. */
  function TrimSeparator(value: string, pathsep: char): (r: string)
    ensures value == r || value == r + [pathsep]
    ensures value == r <==> value == [] || value[|value| - 1] != pathsep
  {
    if |value| > 0 && value[|value| - 1] == pathsep then value[..|value| - 1] else value
  }

  /** What one output line contributes: for a line with '=', the stripped line is
      split at its first '='; the lower-cased key is kept only when it is one of
      `EnvKeys`, and one trailing path-list separator is removed from the value. */
  function EnvLineEntry(line: string, pathsep: char): (e: Option<(string, string)>)
    ensures '=' !in line ==> e.None?
    ensures e.Some? ==> '=' in line && e.value.0 in EnvKeys && e.value.0 == LowerAscii(KeyValueOf(line).0)
    ensures e.Some? ==> e.value.1 == TrimSeparator(KeyValueOf(line).1, pathsep)
    ensures '=' in line && LowerAscii(KeyValueOf(line).0) in EnvKeys
            ==> e == Some((LowerAscii(KeyValueOf(line).0), TrimSeparator(KeyValueOf(line).1, pathsep)))
  {
    if '=' !in line then None
    else
      var (k, value) := KeyValueOf(line);
      var key := LowerAscii(k);
      if key in EnvKeys then Some((key, TrimSeparator(value, pathsep))) else None
  }

  /** A dictionary built from entries in order, a later entry overwriting an earlier one. */
  function FoldEntries(entries: seq<Option<(string, string)>>): map<string, string> {
    if entries == [] then map[]
    else
      var env := FoldEntries(entries[..|entries| - 1]);
      match entries[|entries| - 1]
      case None => env
      case Some((k, v)) => env[k := v]
  }

  function LineEntries(lines: seq<string>, pathsep: char): (es: seq<Option<(string, string)>>)
    ensures |es| == |lines|
    ensures forall i :: 0 <= i < |lines| ==> es[i] == EnvLineEntry(lines[i], pathsep)
  {
    seq(|lines|, i requires 0 <= i < |lines| => EnvLineEntry(lines[i], pathsep))
  }

  /** The dictionary `parse_vcvarsall` returns for the given output lines. */
  function ParseEnvLines(lines: seq<string>, pathsep: char): map<string, string> {
    FoldEntries(LineEntries(lines, pathsep))
  }

  lemma FoldNextLine(lines: seq<string>, i: nat, pathsep: char)
    requires i < |lines|
    ensures FoldEntries(LineEntries(lines[..i + 1], pathsep))
            == match EnvLineEntry(lines[i], pathsep)
               case None => FoldEntries(LineEntries(lines[..i], pathsep))
               case Some((k, v)) => FoldEntries(LineEntries(lines[..i], pathsep))[k := v]
  {
    var before := LineEntries(lines[..i], pathsep);
    var after := LineEntries(lines[..i + 1], pathsep);
    assert after == before + [EnvLineEntry(lines[i], pathsep)];
    assert after[..i] == before;
  }

  /** The line parser of `parse_vcvarsall`, given the captured output. */
  method ParseVcvarsallOutput(out: string, pathsep: char) returns (result: map<string, string>)
    ensures result == ParseEnvLines(SplitOn(out, '\n'), pathsep)
  {
    var lines := SplitOn(out, '\n');
    result := map[];
    for i := 0 to |lines|
      invariant result == FoldEntries(LineEntries(lines[..i], pathsep))
    {
      var line := lines[i];
      ghost var entry := EnvLineEntry(line, pathsep);
      FoldNextLine(lines, i, pathsep);
      if '=' !in line {
        continue;
      }
      EqualsSurvivesStrip(line);
      line := Strip(line);
      var (key, value) := SplitFirst(line, '=');
      assert (key, value) == KeyValueOf(lines[i]);
      key := LowerAscii(key);
      if key in EnvKeys {
        if |value| > 0 && value[|value| - 1] == pathsep {
          value := value[..|value| - 1];
        }
        assert entry == Some((key, value));
        result := result[key := value];
      } else {
        assert entry == None;
      }
    }
    assert lines[..|lines|] == lines;
  }

  lemma {:induction false} FoldEntriesHas(entries: seq<Option<(string, string)>>, k: string)
    ensures k in FoldEntries(entries) <==>
              exists i :: 0 <= i < |entries| && entries[i].Some? && entries[i].value.0 == k
    decreases |entries|
  {
    if entries != [] {
      var init := entries[..|entries| - 1];
      FoldEntriesHas(init, k);
      assert forall i :: 0 <= i < |init| ==> init[i] == entries[i];
    }
  }

  lemma {:induction false} FoldEntriesLast(entries: seq<Option<(string, string)>>, k: string)
    requires k in FoldEntries(entries)
    ensures exists i :: 0 <= i < |entries| && entries[i] == Some((k, FoldEntries(entries)[k]))
              && forall j :: i < j < |entries| ==> entries[j].None? || entries[j].value.0 != k
    decreases |entries|
  {
    var init := entries[..|entries| - 1];
    var last := |entries| - 1;
    var env := FoldEntries(init);
    if entries[last].Some? && entries[last].value.0 == k {
      assert entries[last] == Some((k, FoldEntries(entries)[k]));
    } else {
      FoldEntriesLast(init, k);
      var i :| 0 <= i < |init| && init[i] == Some((k, env[k]))
               && forall j :: i < j < |init| ==> init[j].None? || init[j].value.0 != k;
      assert entries[i] == Some((k, FoldEntries(entries)[k]));
      assert forall j :: i < j < |entries| ==> entries[j].None? || entries[j].value.0 != k by {
        forall j | i < j < |entries| ensures entries[j].None? || entries[j].value.0 != k {
          if j < last { assert init[j] == entries[j]; }
        }
      }
    }
  }

  /** A key is in the folded dictionary exactly when some entry carries it, and
      its value comes from the last entry that does. */
  lemma {:induction false} FoldEntriesLastWins(entries: seq<Option<(string, string)>>, k: string)
    ensures k in FoldEntries(entries) <==>
              exists i :: 0 <= i < |entries| && entries[i].Some? && entries[i].value.0 == k
    ensures k in FoldEntries(entries) ==>
              exists i :: 0 <= i < |entries| && entries[i] == Some((k, FoldEntries(entries)[k]))
                && forall j :: i < j < |entries| ==> entries[j].None? || entries[j].value.0 != k
  {
    FoldEntriesHas(entries, k);
    if k in FoldEntries(entries) {
      FoldEntriesLast(entries, k);
    }
  }

  lemma {:induction false} FoldEntriesKeys(entries: seq<Option<(string, string)>>, keys: set<string>)
    requires forall i :: 0 <= i < |entries| && entries[i].Some? ==> entries[i].value.0 in keys
    ensures FoldEntries(entries).Keys <= keys
  {
    if entries != [] {
      FoldEntriesKeys(entries[..|entries| - 1], keys);
    }
  }

  /** Only the four kept variables appear; a variable appears exactly when some
      line sets it, and its value is the one from the last such line. */
  lemma ParseEnvLinesLastWins(lines: seq<string>, pathsep: char, k: string)
    ensures ParseEnvLines(lines, pathsep).Keys <= EnvKeys
    ensures k in ParseEnvLines(lines, pathsep) <==>
              exists i :: 0 <= i < |lines| && EnvLineEntry(lines[i], pathsep).Some? && EnvLineEntry(lines[i], pathsep).value.0 == k
    ensures k in ParseEnvLines(lines, pathsep) ==>
              exists i :: 0 <= i < |lines| && EnvLineEntry(lines[i], pathsep) == Some((k, ParseEnvLines(lines, pathsep)[k]))
                && forall j :: i < j < |lines| ==> EnvLineEntry(lines[j], pathsep).None? || EnvLineEntry(lines[j], pathsep).value.0 != k
  {
    var es := LineEntries(lines, pathsep);
    FoldEntriesKeys(es, EnvKeys);
    FoldEntriesLastWins(es, k);
  }

  /** `cmake_arch_to_vs_arch`: x64 becomes amd64, x86 and arm are kept, anything
      else is a `ValueError`. */
  function CmakeArchToVsArch(arch: string): (r: Result<string, PyError>)
    ensures r.Ok? <==> arch in {"x64", "x86", "arm"}
    ensures r.Ok? ==> r.value in {"amd64", "x86", "arm"}
    ensures r.Ok? && arch != "x64" ==> r.value == arch
    ensures r.Err? ==> r.error.ValueError?
  {
    if arch == "x64" then Ok("amd64")
    else if arch == "x86" then Ok("x86")
    else if arch == "arm" then Ok("arm")
    else Err(ValueError("unknown platform/toolset architecture: " + arch))
  }

  /** Distinct CMake architectures map to distinct Visual Studio ones, so the
      translation loses nothing. */
  lemma CmakeArchToVsArchInjective(a: string, b: string)
    requires CmakeArchToVsArch(a).Ok? && CmakeArchToVsArch(b).Ok?
    requires CmakeArchToVsArch(a) == CmakeArchToVsArch(b)
    ensures a == b
  {
  }

  /** `get_vs_major_version_from_generator_str`: the third whitespace-separated
      word, read as an integer. `defaultVsGenerator` is what
      `get_default_vs_generator_name` yields, used in place of "Ninja". */
  function VsMajorVersionFromGeneratorStr(generatorStr: string, defaultVsGenerator: Result<string, PyError>)
    : (r: Result<int, PyError>)
    ensures generatorStr != "Ninja" && |Words(generatorStr)| <= 2 ==> r.Err? && r.error.RuntimeError?
    ensures generatorStr != "Ninja" && |Words(generatorStr)| > 2 ==> r == ParseInt(Words(generatorStr)[2])
  {
    var g := if generatorStr == "Ninja" then defaultVsGenerator else Ok(generatorStr);
    match g
    case Err(e) => Err(e)
    case Ok(s) =>
      var words := Words(s);
      if |words| > 2 then ParseInt(words[2])
      else Err(RuntimeError("unexpected generator string: " + s))
  }

  lemma VisualStudioWordsHaveNoSpace()
    ensures NoSpace("Visual") && NoSpace("Studio")
  {
    forall i | 0 <= i < 6 ensures !IsSpace("Visual"[i]) && !IsSpace("Studio"[i]) { }
  }

  lemma VisualStudioPrefix(num: string, year: string)
    ensures "Visual Studio " + num + " " + year == "Visual" + " " + ("Studio" + " " + (num + " " + year))
  {
    assert "Visual Studio " == "Visual" + " " + "Studio" + " ";
  }

  /** Three blank-separated words are the first three words, whatever follows. */
  lemma ThirdWord(a: string, b: string, c: string, rest: string)
    requires a != [] && NoSpace(a) && b != [] && NoSpace(b) && c != [] && NoSpace(c)
    ensures var ws := Words(a + " " + (b + " " + (c + " " + rest)));
      |ws| > 2 && ws[2] == c
  {
    var x3 := c + " " + rest;
    var x2 := b + " " + x3;
    var w3 := Words(x3);
    var w2 := Words(x2);
    var ws := Words(a + " " + x2);
    assert w3 == [c] + Words(rest) by { WordsCons(c, rest); }
    assert w2 == [b] + w3 by { WordsCons(b, x3); }
    assert ws == [a] + w2 by { WordsCons(a, x2); }
    assert ws[2] == w2[1] == w3[0];
  }

  /** A generator name "Visual Studio <n> ..." yields its major version n,
      whatever follows the number. */
  lemma VsMajorVersionOfGeneratorName(n: nat, rest: string, defaultVsGenerator: Result<string, PyError>)
    ensures VsMajorVersionFromGeneratorStr("Visual Studio " + NatToString(n) + " " + rest, defaultVsGenerator) == Ok(n)
  {
    var num := NatToString(n);
    assert NoSpace(num) by {
      forall i | 0 <= i < |num| ensures !IsSpace(num[i]) { assert IsDigit(num[i]); }
    }
    var s := "Visual Studio " + num + " " + rest;
    assert s != "Ninja" by { assert s[0] == 'V'; }
    VisualStudioWordsHaveNoSpace();
    VisualStudioPrefix(num, rest);
    ThirdWord("Visual", "Studio", num, rest);
    ParseIntOfNatToString(n);
  }
}
