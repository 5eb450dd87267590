/**
 * The target file tree, abstracted as a map from path to file content, and
 * the three operations the generator performs on it: write a file, unlink a
 * file, and remove a whole directory tree.
 */
module FileTree {
  import opened Paths

  type Files = map<Path, string>

  datatype FileWrite = FileWrite(path: Path, content: string)

  /** `p` is the directory `dir` itself or lies below it. */
  predicate Under(p: Path, dir: Path)
  {
    p == dir || (|dir| < |p| && p[..|dir| + 1] == dir + "/")
  }

  /** `files` without the tree rooted at `dir`. */
  function Removed(files: Files, dir: Path): (r: Files)
    ensures forall p :: p in r <==> p in files && !Under(p, dir)
    ensures forall p :: p in r ==> r[p] == files[p]
  {
    map p | p in files && !Under(p, dir) :: files[p]
  }

  /** The paths a sequence of writes touches. */
  function Touched(ws: seq<FileWrite>): set<Path>
  {
    set w | w in ws :: w.path
  }

  /** The files after performing `ws` in order; a later write to a path overwrites an earlier one. */
  function ApplyWrites(files: Files, ws: seq<FileWrite>): Files
    decreases |ws|
  {
    if ws == [] then files
    else
      var last := ws[|ws| - 1];
      ApplyWrites(files, ws[..|ws| - 1])[last.path := last.content]
  }

  /** Writing adds exactly the written paths and changes no other file. */
  lemma {:induction false} ApplyWritesFrame(files: Files, ws: seq<FileWrite>)
    ensures ApplyWrites(files, ws).Keys == files.Keys + Touched(ws)
    ensures forall p :: p in files && p !in Touched(ws) ==> ApplyWrites(files, ws)[p] == files[p]
    decreases |ws|
  {
    if ws != [] {
      var init := ws[..|ws| - 1];
      ApplyWritesFrame(files, init);
      assert ws == init + [ws[|ws| - 1]];
      assert Touched(ws) == Touched(init) + {ws[|ws| - 1].path};
    }
  }

  /** A path holds the content of the last write to it. */
  lemma {:induction false} ApplyWritesLast(files: Files, ws: seq<FileWrite>, k: nat)
    requires k < |ws|
    requires forall m :: k < m < |ws| ==> ws[m].path != ws[k].path
    ensures ws[k].path in ApplyWrites(files, ws)
    ensures ApplyWrites(files, ws)[ws[k].path] == ws[k].content
    decreases |ws|
  {
    if k < |ws| - 1 {
      var init := ws[..|ws| - 1];
      assert forall m :: k < m < |init| ==> init[m] == ws[m];
      ApplyWritesLast(files, init, k);
    }
  }

  /** The target tree, updated in place by the generator. */
  class Tree {
    var files: Files

    constructor (files: Files)
      ensures this.files == files
    {
      this.files := files;
    }

    /** `fs.writeFile`: creates or overwrites one file. */
    method Write(path: Path, content: string)
      modifies this
      ensures files == old(files)[path := content]
    {
      files := files[path := content];
    }

    /** `fs.unlinkSync`: deletes one existing file. */
    method Unlink(path: Path)
      requires path in files
      modifies this
      ensures files == old(files) - {path}
    {
      files := files - {path};
    }

    /** `removeSync`: deletes a directory tree; nothing happens when it does not exist. */
    method RemoveTree(dir: Path)
      modifies this
      ensures files == Removed(old(files), dir)
    {
      files := Removed(files, dir);
    }
  }
}
