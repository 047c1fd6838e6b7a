/** The legacy Ninja generator (generators/osx/Ninja.py): the target names it
    reads from the lines of `cmake --build . --target help`, and the command it
    builds for a target. The process run is not modelled: its output lines and
    error text are parameters. */
module NinjaTargets {
  import opened Wrappers
  import opened Strings

  /** Lines containing any of these are headers, meta targets or object-file targets. */
  const Excludes: seq<string> := [
    "are some of the valid targets for this Makefile:",
    "All primary targets available:",
    "depend",
    "all (the default if no target is provided)",
    "help",
    "edit_cache",
    ".ninja",
    ".o",
    ".i",
    ".s"]

  /** `any(exclude in target for exclude in EXCLUDES)` */
  predicate Excluded(line: string) {
    exists k :: 0 <= k < |Excludes| && Contains(line, Excludes[k])
  }

  /** `target.rpartition(':')[0]`: the text before the last ':', empty without one. */
  function TargetOf(line: string): (target: string)
    ensures StartsWith(line, target)
    ensures ':' !in line ==> target == ""
    ensures ':' in line ==> |target| < |line| && line[|target|] == ':' && ':' !in line[|target| + 1..]
  {
    RPartitionHead(line, ':')
  }

  /** The targets of the lines read so far: one per line that is not excluded. */
  function KeptTargets(lines: seq<string>): seq<string> {
    if |lines| == 0 then []
    else KeptTargets(lines[..|lines| - 1])
         + (if Excluded(lines[|lines| - 1]) then [] else [TargetOf(lines[|lines| - 1])])
  }

  /** `variants`, from the help output on: no list after an error message,
      otherwise the target of every line that is not excluded. */
  method Variants(lines: seq<string>, errs: string) returns (variants: Option<seq<string>>)
    ensures errs != "" ==> variants == None
    ensures errs == "" ==> variants == Some(KeptTargets(lines))
  {
    if errs != "" {
      return None;
    }
    var kept: seq<string> := [];
    for i := 0 to |lines|
      invariant kept == KeptTargets(lines[..i])
    {
      var target := lines[i];
      assert lines[..i + 1][..i] == lines[..i];
      if Excluded(target) {
        continue;
      }
      target := TargetOf(target);
      kept := kept + [target];
    }
    assert lines[..|lines|] == lines;
    return Some(kept);
  }

  /** The line each kept target came from, in order. */
  ghost function KeptIndices(lines: seq<string>): seq<nat> {
    if |lines| == 0 then []
    else KeptIndices(lines[..|lines| - 1]) + (if Excluded(lines[|lines| - 1]) then [] else [|lines| - 1])
  }

  lemma {:induction false} KeptCount(lines: seq<string>)
    ensures |KeptIndices(lines)| == |KeptTargets(lines)| <= |lines|
    decreases |lines|
  {
    if |lines| > 0 {
      KeptCount(lines[..|lines| - 1]);
    }
  }

  lemma {:induction false} KeptTargetsAt(lines: seq<string>)
    ensures |KeptIndices(lines)| == |KeptTargets(lines)|
    ensures forall k :: 0 <= k < |KeptIndices(lines)| ==>
              KeptIndices(lines)[k] < |lines| && !Excluded(lines[KeptIndices(lines)[k]])
              && KeptTargets(lines)[k] == TargetOf(lines[KeptIndices(lines)[k]])
    decreases |lines|
  {
    if |lines| > 0 {
      var init := lines[..|lines| - 1];
      KeptTargetsAt(init);
      forall i | 0 <= i < |init| ensures init[i] == lines[i] { }
    }
  }

  lemma {:induction false} KeptIndicesIncreasing(lines: seq<string>)
    ensures forall k :: 0 <= k < |KeptIndices(lines)| ==> KeptIndices(lines)[k] < |lines|
    ensures forall k, l :: 0 <= k < l < |KeptIndices(lines)| ==> KeptIndices(lines)[k] < KeptIndices(lines)[l]
    decreases |lines|
  {
    if |lines| > 0 {
      KeptIndicesIncreasing(lines[..|lines| - 1]);
    }
  }

  lemma {:induction false} KeptIndicesComplete(lines: seq<string>)
    ensures forall i :: 0 <= i < |lines| && !Excluded(lines[i]) ==> i in KeptIndices(lines)
    decreases |lines|
  {
    if |lines| > 0 {
      var init := lines[..|lines| - 1];
      KeptIndicesComplete(init);
      forall i | 0 <= i < |init| ensures init[i] == lines[i] { }
    }
  }

  /** The kept targets correspond, in order, to the lines that are not
      excluded: the k-th target is the text before the last ':' of the k-th such
      line, every such line contributes one, and there are never more targets
      than lines. */
  lemma KeptTargetsSpec(lines: seq<string>)
    ensures var out := KeptTargets(lines); var idx := KeptIndices(lines);
      && |idx| == |out| <= |lines|
      && (forall k :: 0 <= k < |idx| ==> idx[k] < |lines| && !Excluded(lines[idx[k]]) && out[k] == TargetOf(lines[idx[k]]))
      && (forall k, l :: 0 <= k < l < |idx| ==> idx[k] < idx[l])
      && (forall i :: 0 <= i < |lines| && !Excluded(lines[i]) ==> i in idx)
  {
    KeptCount(lines);
    KeptTargetsAt(lines);
    KeptIndicesIncreasing(lines);
    KeptIndicesComplete(lines);
  }

  /** `shell_cmd`: builds one target. */
  function ShellCmd(target: string): (cmd: string)
    ensures StartsWith(cmd, "cmake --build . --target ") && cmd[|"cmake --build . --target "|..] == target
  {
    "cmake --build . --target " + target
  }
}
