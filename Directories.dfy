/**
 * The directories a pipeline may use, worked out from a "dir" config, the pipeline's short
 * name and the run id: the default root (resolved against the working directory once and
 * then cached), the run directory under it, and the five named directories.
 *
 * The environment's `PWD` is a parameter. Python's `%` formatting with the pattern data is
 * the function `format`, which the model does not interpret.
 */
module Directories {
  import opened Wrappers
  import opened PyText

  /** The "dir" config: every field is a string. */
  datatype DirConfig = DirConfig(defaultRoot: string, runDirPattern: string, workDir: string, inputDir: string,
                                 outputDir: string, updateDir: string, scratchDir: string)

  /** `config.toDict()`: one entry per field. */
  function ToDict(c: DirConfig): (r: map<string, string>)
    ensures r.Keys == {"defaultRoot", "runDirPattern", "workDir", "inputDir", "outputDir", "updateDir", "scratchDir"}
    ensures r["updateDir"] == c.updateDir && r["workDir"] == c.workDir && r["inputDir"] == c.inputDir
    ensures r["outputDir"] == c.outputDir && r["scratchDir"] == c.scratchDir
  {
    map["defaultRoot" := c.defaultRoot, "runDirPattern" := c.runDirPattern, "workDir" := c.workDir,
        "inputDir" := c.inputDir, "outputDir" := c.outputDir, "updateDir" := c.updateDir,
        "scratchDir" := c.scratchDir]
  }

  /** The five names `getDirs` fills in, in its order. */
  const DirNames: seq<string> := ["workDir", "inputDir", "outputDir", "updateDir", "scratchDir"]

  /** The five names are distinct: their first letters already differ. */
  lemma DirNamesDistinct()
    ensures forall i, j :: 0 <= i < j < |DirNames| ==> DirNames[i] != DirNames[j]
  {
    assert forall i, j :: 0 <= i < j < |DirNames| ==> DirNames[i][0] != DirNames[j][0];
  }

  /** The default root from the configured one: "." is the working directory, a relative root goes under it, an absolute one stays. */
  function ResolveRoot(root: string, pwd: string): (r: string)
    ensures root == "." ==> r == pwd
    ensures root != "." && IsAbs(root) ==> r == root
    ensures root != "." && !IsAbs(root) ==> r == Join(pwd, root)
  {
    if root == "." then pwd
    else if !IsAbs(root) then Join(pwd, root)
    else root
  }

  /** With an absolute working directory, the default root is absolute. */
  lemma ResolvedRootIsAbsolute(root: string, pwd: string)
    requires IsAbs(pwd)
    ensures IsAbs(ResolveRoot(root, pwd))
  {
    if root != "." && !IsAbs(root) {
      var r := Join(pwd, root);
      assert r[..|pwd|] == pwd;
      assert r[0] == r[..|pwd|][0];
    }
  }

  /** The run directory: an absolute formatted one loses exactly one leading `/` and is joined under the root. */
  function RunDirUnder(root: string, runDir: string): (r: string)
    ensures IsAbs(runDir) ==> r == Join(root, runDir[1..])
    ensures !IsAbs(runDir) ==> r == Join(root, runDir)
  {
    if IsAbs(runDir) then Join(root, runDir[1..]) else Join(root, runDir)
  }

  /** The run directory lies under the root unless dropping the one separator still leaves an absolute path. */
  lemma RunDirIsUnderRoot(root: string, runDir: string)
    requires !IsAbs(if IsAbs(runDir) then runDir[1..] else runDir)
    ensures |root| <= |RunDirUnder(root, runDir)| && RunDirUnder(root, runDir)[..|root|] == root
  {
  }

  /** A named directory: an absolute one as it is, a relative one under the run directory. */
  function NamedPath(dir: string, runDir: string): (r: string)
    ensures IsAbs(dir) ==> r == dir
    ensures !IsAbs(dir) ==> r == Join(runDir, dir)
  {
    if IsAbs(dir) then dir else Join(runDir, dir)
  }

  /** `getNamedDirectory` as written catches only pex exceptions: a name missing from the config raises KeyError. */
  datatype DirError = KeyError(name: string)

  class Directories {
    const config: DirConfig
    const runid: string
    const shortname: string
    const patdata: map<string, string>
    const format: (string, map<string, string>) -> string
    var defroot: Option<string>

    /** The pattern data holds the run id (by default "no-id") and the short name; no root is cached yet. */
    constructor (dirConfig: DirConfig, shortName: string, runId: Option<string>, formatter: (string, map<string, string>) -> string)
      ensures config == dirConfig && shortname == shortName && format == formatter
      ensures runid == (if runId.Some? then runId.value else "no-id")
      ensures patdata == map["runid" := runid, "shortname" := shortname]
      ensures defroot.None?
    {
      config := dirConfig;
      runid := if runId.Some? then runId.value else "no-id";
      shortname := shortName;
      format := formatter;
      patdata := map["runid" := if runId.Some? then runId.value else "no-id", "shortname" := shortName];
      defroot := None;
    }

    /** `getDefaultRootDir`: the first call resolves and caches the root; later calls return the cached value whatever `pwd` is. */
    method GetDefaultRootDir(pwd: string) returns (root: string)
      modifies this
      ensures old(defroot).Some? ==> root == old(defroot).value
      ensures old(defroot).None? ==> root == ResolveRoot(config.defaultRoot, pwd)
      ensures defroot == Some(root)
    {
      if defroot.Some? {
        return defroot.value;
      }
      root := config.defaultRoot;
      if root == "." {
        root := pwd;
      } else if !IsAbs(root) {
        root := Join(pwd, root);
      }
      defroot := Some(root);
    }

    /** `getDefaultRunDir`: the formatted run pattern under the (cached) default root. */
    method GetDefaultRunDir(pwd: string) returns (dir: string)
      modifies this
      ensures defroot == Some(if old(defroot).Some? then old(defroot).value else ResolveRoot(config.defaultRoot, pwd))
      ensures dir == RunDirUnder(defroot.value, format(config.runDirPattern, patdata))
    {
      var root := GetDefaultRootDir(pwd);
      var runDir := format(config.runDirPattern, patdata);
      if IsAbs(runDir) {
        runDir := runDir[1..];
      }
      return Join(root, runDir);
    }

    /** `getNamedDirectory` as written: a name missing from the config is a KeyError. */
    method GetNamedDirectoryAsWritten(name: string, pwd: string) returns (r: Result<string, DirError>)
      modifies this
      ensures name !in ToDict(config) ==> r == Failure(KeyError(name)) && defroot == old(defroot)
      ensures name in ToDict(config) && IsAbs(format(ToDict(config)[name], patdata)) ==>
                r == Success(format(ToDict(config)[name], patdata)) && defroot == old(defroot)
      ensures name in ToDict(config) && !IsAbs(format(ToDict(config)[name], patdata)) ==>
                defroot.Some? &&
                r == Success(NamedPath(format(ToDict(config)[name], patdata),
                                       RunDirUnder(defroot.value, format(config.runDirPattern, patdata))))
      ensures defroot == old(defroot) || (old(defroot).None? && defroot == Some(ResolveRoot(config.defaultRoot, pwd)))
    {
      var configDict := ToDict(config);
      if name !in configDict {
        return Failure(KeyError(name));
      }
      var dir := format(configDict[name], patdata);
      if !IsAbs(dir) {
        var runDir := GetDefaultRunDir(pwd);
        dir := Join(runDir, dir);
      }
      return Success(dir);
    }

    /** The pattern `getNamedDirectory` looks up for `name`: its own entry, or the update directory's for a name the config lacks. */
    function Lookup(name: string): (p: string)
      ensures name in ToDict(config) ==> p == ToDict(config)[name]
      ensures name !in ToDict(config) ==> p == config.updateDir
    {
      var configDict := ToDict(config);
      if name in configDict then configDict[name] else configDict["updateDir"]
    }

    /** `getNamedDirectory` with the fallback the documentation promises: an unknown name gives the update directory. */
    method GetNamedDirectory(name: string, pwd: string) returns (dir: string)
      modifies this
      ensures var d := format(Lookup(name), patdata);
              (IsAbs(d) ==> dir == d && defroot == old(defroot)) &&
              (!IsAbs(d) ==> defroot.Some? && dir == NamedPath(d, RunDirUnder(defroot.value, format(config.runDirPattern, patdata))))
      ensures defroot == old(defroot) || (old(defroot).None? && defroot == Some(ResolveRoot(config.defaultRoot, pwd)))
      ensures dir == Resolved(name, defroot)
    {
      var configDict := ToDict(config);
      if name in configDict {
        dir := format(configDict[name], patdata);
      } else {
        dir := format(configDict["updateDir"], patdata);
      }
      if !IsAbs(dir) {
        var runDir := GetDefaultRunDir(pwd);
        dir := Join(runDir, dir);
      }
    }

    /**
     * The directory `getNamedDirectory` gives for `n` once the default root is `root`: an absolute
     * one as it is; a relative one under the run directory, which only exists once a root was resolved.
     */
    function Resolved(n: string, root: Option<string>): (r: string)
      ensures IsAbs(format(Lookup(n), patdata)) ==> r == format(Lookup(n), patdata)
      ensures !IsAbs(format(Lookup(n), patdata)) && root.Some? ==>
                r == Join(RunDirUnder(root.value, format(config.runDirPattern, patdata)), format(Lookup(n), patdata))
    {
      var d := format(Lookup(n), patdata);
      if root.None? then d else NamedPath(d, RunDirUnder(root.value, format(config.runDirPattern, patdata)))
    }

    /** Every one of `names` is configured as an absolute directory. */
    predicate AllAbsolute(names: seq<string>) {
      forall i :: 0 <= i < |names| ==> IsAbs(format(Lookup(names[i]), patdata))
    }

    /** The map `getDirs` fills for `names`, in order, once the default root is `root`. */
    function DirsMap(names: seq<string>, root: Option<string>): (r: map<string, string>)
      ensures r.Keys == set n | n in names
    {
      if names == [] then map[]
      else
        var last := names[|names| - 1];
        var front := names[..|names| - 1];
        assert forall n :: n in names <==> n in front || n == last;
        DirsMap(front, root)[last := Resolved(last, root)]
    }

    /** Before a root is resolved only absolute directories were met: resolving it later changes none of them. */
    lemma {:induction false} DirsMapRootless(names: seq<string>, root: Option<string>)
      requires AllAbsolute(names)
      ensures DirsMap(names, None) == DirsMap(names, root)
    {
      if names != [] {
        var front := names[..|names| - 1];
        assert forall i :: 0 <= i < |front| ==> front[i] == names[i];
        DirsMapRootless(front, root);
      }
    }

    /**
     * One step of `getDirs`: the map so far, with the next name's directory added, is the map
     * for one more name, even when that name was the first relative one and resolved the root.
     */
    lemma DirsMapStep(names: seq<string>, k: nat, root: Option<string>, root': Option<string>, dir: string)
      requires k < |names|
      requires root' == root || (root.None? && AllAbsolute(names[..k]))
      requires dir == Resolved(names[k], root')
      ensures DirsMap(names[..k], root)[names[k] := dir] == DirsMap(names[..k + 1], root')
    {
      if root' != root {
        DirsMapRootless(names[..k], root');
      }
      assert names[..k + 1][..k] == names[..k];
    }

    /** One more absolute name keeps a prefix of absolute names absolute. */
    lemma AllAbsoluteStep(names: seq<string>, k: nat)
      requires k < |names| && AllAbsolute(names[..k]) && IsAbs(format(Lookup(names[k]), patdata))
      ensures AllAbsolute(names[..k + 1])
    {
      assert forall i :: 0 <= i < k ==> names[..k + 1][i] == names[..k][i];
    }

    /** Each of distinct names maps to its resolved directory. */
    lemma {:induction false} DirsMapAt(names: seq<string>, root: Option<string>)
      requires forall i, j :: 0 <= i < j < |names| ==> names[i] != names[j]
      ensures forall k :: 0 <= k < |names| ==> DirsMap(names, root)[names[k]] == Resolved(names[k], root)
    {
      if names != [] {
        var front := names[..|names| - 1];
        DirsMapAt(front, root);
        forall k | 0 <= k < |names| - 1
          ensures DirsMap(names, root)[names[k]] == Resolved(names[k], root)
        {
          assert front[k] == names[k] && names[k] != names[|names| - 1];
        }
      }
    }

    /**
     * `getDirs`: exactly the five named directories, each as `getNamedDirectory` gives it; the
     * default root is resolved by the first relative one, and stays unresolved when all five are absolute.
     */
    method GetDirs(pwd: string) returns (out: map<string, string>)
      modifies this
      ensures out.Keys == set n | n in DirNames
      ensures forall k :: 0 <= k < |DirNames| ==> out[DirNames[k]] == Resolved(DirNames[k], defroot)
      ensures defroot.None? ==> AllAbsolute(DirNames)
      ensures old(defroot).Some? ==> defroot == old(defroot)
    {
      out := map[];
      var k := 0;
      while k < |DirNames|
        invariant 0 <= k <= |DirNames|
        invariant out == DirsMap(DirNames[..k], defroot)
        invariant old(defroot).Some? ==> defroot == old(defroot)
        invariant defroot.None? ==> AllAbsolute(DirNames[..k])
      {
        ghost var root := defroot;
        var dir := GetNamedDirectory(DirNames[k], pwd);
        DirsMapStep(DirNames, k, root, defroot, dir);
        if defroot.None? {
          AllAbsoluteStep(DirNames, k);
        }
        out := out[DirNames[k] := dir];
        k := k + 1;
      }
      assert DirNames[..k] == DirNames;
      DirNamesDistinct();
      DirsMapAt(DirNames, defroot);
    }
  }
}
