/**
 * Locating the worker script: walk the ancestors of the executable's
 * directory, that directory first, and take the first one that holds
 * scripts/p2p-sidecar.js. The project root the worker runs in is the
 * script's grandparent, which is that ancestor.
 */
module Paths {
  import opened Wrappers

  /** A path as its sequence of components; the root (or the empty relative path) is []. */
  type Path = seq<string>

  /** Path::parent: the path without its last component, none for the root. */
  function Parent(p: Path): (r: Option<Path>)
    ensures r.None? <==> p == []
    ensures r.Some? ==> |r.value| + 1 == |p| && r.value == p[..|r.value|]
  {
    if p == [] then None else Some(p[..|p| - 1])
  }

  /** Path::join with one component; its parent is the directory joined onto. */
  function Join(dir: Path, name: string): (p: Path)
    ensures Parent(p) == Some(dir) && p[|p| - 1] == name
  {
    dir + [name]
  }

  const ScriptDir: string := "scripts"
  const ScriptName: string := "p2p-sidecar.js"

  /** Where the worker script would be if dir were the project root. */
  function ScriptIn(dir: Path): (script: Path)
    ensures |script| == |dir| + 2 && script[..|dir|] == dir
  {
    dir + [ScriptDir, ScriptName]
  }

  /** d is one of Path::ancestors of dir: dir itself or a prefix of it. */
  predicate IsAncestor(d: Path, dir: Path)
  {
    |d| <= |dir| && dir[..|d|] == d
  }

  /** No ancestor of dir longer than lo components holds the script. */
  ghost predicate NoScriptAbove(dir: Path, lo: nat, present: Path -> bool)
  {
    forall j :: lo < j <= |dir| ==> !present(ScriptIn(dir[..j]))
  }

  /**
   * d is the ancestor where the search stops: it holds the script and no
   * longer ancestor of dir (one visited earlier) does.
   */
  ghost predicate FirstScriptHome(dir: Path, d: Path, present: Path -> bool)
  {
    IsAncestor(d, dir) && present(ScriptIn(d)) && NoScriptAbove(dir, |d|, present)
  }

  /** Stepping from dir to its parent keeps what is known of the longer ancestors. */
  lemma NoScriptAboveParent(dir: Path, lo: nat, present: Path -> bool)
    requires dir != [] && !present(ScriptIn(dir)) && lo < |dir|
    requires NoScriptAbove(dir[..|dir| - 1], lo, present)
    ensures NoScriptAbove(dir, lo, present)
  {
    var up := dir[..|dir| - 1];
    forall j | lo < j <= |dir|
      ensures !present(ScriptIn(dir[..j]))
    {
      if j < |dir| {
        assert up[..j] == dir[..j];
      } else {
        assert dir[..j] == dir;
      }
    }
  }

  /** The outcome FindScript promises for dir. */
  ghost predicate FoundFirst(dir: Path, r: Option<Path>, present: Path -> bool)
  {
    && (r.Some? ==> |r.value| >= 2 && r.value == ScriptIn(r.value[..|r.value| - 2])
                    && FirstScriptHome(dir, r.value[..|r.value| - 2], present))
    && (r.None? <==> NoScriptAbove(dir, 0, present) && !present(ScriptIn([])))
  }

  /** The search ends at dir when dir itself holds the script. */
  lemma FoundAtStart(dir: Path, present: Path -> bool)
    requires present(ScriptIn(dir))
    ensures FoundFirst(dir, Some(ScriptIn(dir)), present)
  {
    var s := ScriptIn(dir);
    assert s[..|s| - 2] == dir;
    assert dir[..|dir|] == dir;
  }

  /** Otherwise the search of dir ends where the search of its parent does. */
  lemma FoundFromParent(dir: Path, r: Option<Path>, present: Path -> bool)
    requires dir != [] && !present(ScriptIn(dir))
    requires FoundFirst(dir[..|dir| - 1], r, present)
    ensures FoundFirst(dir, r, present)
  {
    var up := dir[..|dir| - 1];
    if r.Some? {
      var d := r.value[..|r.value| - 2];
      assert up[..|d|] == dir[..|d|];
      NoScriptAboveParent(dir, |d|, present);
    } else {
      NoScriptAboveParent(dir, 0, present);
    }
    if NoScriptAbove(dir, 0, present) && !present(ScriptIn([])) {
      forall j | 0 < j <= |up| ensures !present(ScriptIn(up[..j])) {
        assert up[..j] == dir[..j];
      }
    }
  }

  /**
   * The find_map over ancestors: the script path in the first ancestor,
   * longest first, where it exists; none when neither dir nor any ancestor
   * of it, the root included, holds it.
   */
  function FindScript(dir: Path, present: Path -> bool): (r: Option<Path>)
    ensures r.Some? ==> |r.value| >= 2 && r.value == ScriptIn(r.value[..|r.value| - 2])
                        && FirstScriptHome(dir, r.value[..|r.value| - 2], present)
    ensures r.None? <==> NoScriptAbove(dir, 0, present) && !present(ScriptIn([]))
    decreases |dir|
  {
    if present(ScriptIn(dir)) then
      FoundAtStart(dir, present);
      Some(ScriptIn(dir))
    else if dir == [] then
      None
    else
      var r := FindScript(dir[..|dir| - 1], present);
      FoundFromParent(dir, r, present);
      r
  }

  /** parent().and_then(parent): the directory two levels above a path. */
  function ProjectRoot(script: Path): (r: Option<Path>)
  {
    match Parent(script)
    case None => None
    case Some(p) => Parent(p)
  }

  /** Only one ancestor can be the first to hold the script. */
  lemma FirstScriptHomeUnique(dir: Path, d1: Path, d2: Path, present: Path -> bool)
    requires FirstScriptHome(dir, d1, present) && FirstScriptHome(dir, d2, present)
    ensures d1 == d2
  {
  }

  /**
   * Whenever the search finds the script, the project root derived from it
   * exists (the "invalid sidecar script path" error cannot happen) and is
   * exactly the first ancestor of dir that holds the script.
   */
  lemma ProjectRootIsScriptHome(dir: Path, present: Path -> bool)
    requires FindScript(dir, present).Some?
    ensures ProjectRoot(FindScript(dir, present).value).Some?
    ensures FirstScriptHome(dir, ProjectRoot(FindScript(dir, present).value).value, present)
  {
    var s := FindScript(dir, present).value;
    var d := s[..|s| - 2];
    assert s == d + [ScriptDir, ScriptName];
    assert s[..|s| - 1] == d + [ScriptDir] && (d + [ScriptDir])[..|d|] == d;
  }
}
