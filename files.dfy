/**
 * Paths and a file system seen as a map from path to content, updated by a
 * sequence of writes, each of which the environment may make fail.
 */
module Files {
  import opened Outcomes

  type Path = string

  /** `path.join(dir, name)` for a directory without a trailing separator. */
  function Join(dir: Path, name: Path): Path {
    dir + "/" + name
  }

  /** `p` names something strictly inside directory `dir`. */
  predicate IsUnder(dir: Path, p: Path) {
    |dir| < |p| && p[..|dir| + 1] == dir + "/"
  }

  /** The part of `p` below `dir`. */
  function RelativeTo(dir: Path, p: Path): (rel: Path)
    requires IsUnder(dir, p)
    ensures Join(dir, rel) == p
  {
    p[|dir| + 1..]
  }

  lemma JoinIsUnder(dir: Path, name: Path)
    ensures IsUnder(dir, Join(dir, name))
    ensures RelativeTo(dir, Join(dir, name)) == name
  {
  }

  /** Joining under one directory never maps two names to one path. */
  lemma JoinInjective(dir: Path, a: Path, b: Path)
    requires Join(dir, a) == Join(dir, b)
    ensures a == b
  {
    assert a == Join(dir, a)[|dir| + 1..];
    assert b == Join(dir, b)[|dir| + 1..];
  }

  /** No name occurs twice in `names`. */
  predicate Distinct(names: seq<Path>) {
    forall i, j :: 0 <= i < j < |names| ==> names[i] != names[j]
  }

  /** One `writeFile(path, content)`. */
  datatype Write<C> = Write(path: Path, content: C)

  /** The writes `ws` go, in order, to the paths `names` under `dir`. */
  predicate WritesUnder<C>(dir: Path, ws: seq<Write<C>>, names: seq<Path>) {
    |ws| == |names| && forall i :: 0 <= i < |ws| ==> ws[i].path == Join(dir, names[i])
  }

  /** The file map after the writes `ws`, performed in order, all succeeded. */
  function ApplyWrites<C>(files: map<Path, C>, ws: seq<Write<C>>): map<Path, C> {
    if ws == [] then files
    else
      var last := ws[|ws| - 1];
      ApplyWrites(files, ws[..|ws| - 1])[last.path := last.content]
  }

  /** The paths the writes `ws` create or replace, and no others, are added to the map. */
  lemma {:induction false} ApplyWritesKeys<C>(files: map<Path, C>, ws: seq<Write<C>>)
    ensures ApplyWrites(files, ws).Keys == files.Keys + set i | 0 <= i < |ws| :: ws[i].path
  {
    if ws != [] {
      var init := ws[..|ws| - 1];
      ApplyWritesKeys(files, init);
      var written := set i | 0 <= i < |ws| :: ws[i].path;
      var writtenInit := set i | 0 <= i < |init| :: init[i].path;
      assert written == writtenInit + {ws[|ws| - 1].path} by {
        forall p | p in written ensures p in writtenInit + {ws[|ws| - 1].path} {
          var i :| 0 <= i < |ws| && ws[i].path == p;
          if i < |init| { assert init[i] == ws[i]; }
        }
        forall p | p in writtenInit ensures p in written {
          var i :| 0 <= i < |init| && init[i].path == p;
          assert ws[i] == init[i];
        }
      }
    }
  }

  /** A path that no later write replaces holds what write `i` wrote to it. */
  lemma {:induction false} ApplyWritesAt<C>(files: map<Path, C>, ws: seq<Write<C>>, i: nat)
    requires i < |ws|
    requires forall j :: i < j < |ws| ==> ws[j].path != ws[i].path
    ensures ws[i].path in ApplyWrites(files, ws)
    ensures ApplyWrites(files, ws)[ws[i].path] == ws[i].content
  {
    if i < |ws| - 1 {
      var init := ws[..|ws| - 1];
      assert init[i] == ws[i];
      forall j | i < j < |init| ensures init[j].path != init[i].path {
        assert init[j] == ws[j];
      }
      ApplyWritesAt(files, init, i);
    }
  }

  /** A path that no write touches keeps its content, or stays absent. */
  lemma {:induction false} ApplyWritesElsewhere<C>(files: map<Path, C>, ws: seq<Write<C>>, p: Path)
    requires forall j :: 0 <= j < |ws| ==> ws[j].path != p
    ensures p in ApplyWrites(files, ws) <==> p in files
    ensures p in files ==> ApplyWrites(files, ws)[p] == files[p]
  {
    if ws != [] {
      var init := ws[..|ws| - 1];
      forall j | 0 <= j < |init| ensures init[j].path != p {
        assert init[j] == ws[j];
      }
      ApplyWritesElsewhere(files, init, p);
    }
  }

  /** Writes to distinct names under one directory go to distinct paths. */
  lemma WritesUnderDistinct<C>(dir: Path, ws: seq<Write<C>>, names: seq<Path>, i: nat)
    requires WritesUnder(dir, ws, names) && Distinct(names) && i < |ws|
    ensures forall j :: i < j < |ws| ==> ws[j].path != ws[i].path
  {
    forall j | i < j < |ws| ensures ws[j].path != ws[i].path {
      if ws[j].path == ws[i].path {
        JoinInjective(dir, names[i], names[j]);
      }
    }
  }

  /** The names, relative to `dir`, of the entries of `files` under `dir`. */
  function FilesUnder<C>(files: map<Path, C>, dir: Path): set<Path> {
    set p | p in files && IsUnder(dir, p) :: RelativeTo(dir, p)
  }

  /**
   * Writing `names` under a directory that held nothing leaves exactly
   * those names under it.
   */
  lemma FilesUnderAfterWrites<C>(files: map<Path, C>, dir: Path, ws: seq<Write<C>>, names: seq<Path>)
    requires WritesUnder(dir, ws, names)
    requires forall p :: p in files ==> !IsUnder(dir, p)
    ensures FilesUnder(ApplyWrites(files, ws), dir) == set n | n in names
  {
    var result := ApplyWrites(files, ws);
    ApplyWritesKeys(files, ws);
    forall n | n in names ensures n in FilesUnder(result, dir) {
      var i :| 0 <= i < |names| && names[i] == n;
      JoinIsUnder(dir, n);
      assert ws[i].path in result.Keys;
    }
    forall r | r in FilesUnder(result, dir) ensures r in names {
      var p :| p in result && IsUnder(dir, p) && RelativeTo(dir, p) == r;
      assert p !in files;
      var i :| 0 <= i < |ws| && ws[i].path == p;
      JoinIsUnder(dir, names[i]);
    }
  }

  /**
   * The index of the first write in `ws` that `fault` makes fail, or `|ws|`
   * when every write succeeds.
   */
  function FirstFault<C>(ws: seq<Write<C>>, fault: Path -> Option<Error>): (k: nat)
    ensures k <= |ws|
    ensures forall i :: 0 <= i < k ==> fault(ws[i].path).None?
    ensures k < |ws| ==> fault(ws[k].path).Some?
  {
    if ws == [] then 0
    else if fault(ws[0].path).Some? then 0
    else
      var k := 1 + FirstFault(ws[1..], fault);
      assert forall i :: 1 <= i < k ==> ws[i] == ws[1..][i - 1];
      k
  }
}
