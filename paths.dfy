/**
 * Paths of the generator: joining segments, and the `subdir` computation
 * that strips the templates directory from a template's directory.
 */
module Paths {
  import opened Wrappers
  import opened Strings

  type Path = string

  /** Joins two path segments with `/`, ignoring an empty segment, as `path.join` does. */
  function Join(a: Path, b: Path): Path
  {
    if a == "" then b else if b == "" then a else a + "/" + b
  }

  lemma JoinAssociative(a: Path, b: Path, c: Path)
    ensures Join(Join(a, b), c) == Join(a, Join(b, c))
  {
  }

  /** Drops one leading `/`, the optional `[/]?` of the subdir pattern. */
  function DropSlash(s: string): (r: string)
    ensures |r| <= |s|
  {
    if |s| > 0 && s[0] == '/' then s[1..] else s
  }

  /**
   * `root` with the first occurrence of `templatesDir`, and one `/` right
   * after it, removed; `root` unchanged when `templatesDir` does not occur.
   */
  function Subdir(root: Path, templatesDir: Path): (r: Path)
    ensures !Contains(root, templatesDir) ==> r == root
    ensures |r| <= |root|
  {
    match IndexOf(root, templatesDir)
    case None => root
    case Some(i) => root[..i] + DropSlash(root[i + |templatesDir|..])
  }

  /**
   * Reference characterisation of Subdir: when `root` splits as
   * `pre + templatesDir + post` and `templatesDir` does not start inside
   * `pre`, the subdir is `pre` followed by `post` without one leading `/`.
   */
  lemma SubdirAt(root: Path, templatesDir: Path, pre: string, post: string)
    requires root == pre + templatesDir + post
    requires forall j: nat :: j < |pre| ==> !OccursAt(root, templatesDir, j)
    ensures Subdir(root, templatesDir) == pre + DropSlash(post)
  {
    assert root[|pre|..|pre| + |templatesDir|] == templatesDir;
    assert OccursAt(root, templatesDir, |pre|);
    var i := IndexOf(root, templatesDir).value;
    assert i == |pre|;
    assert root[..i] == pre;
    assert root[i + |templatesDir|..] == post;
  }

  /** A templates directory written with a trailing `/`: the optional slash is already consumed. */
  lemma SubdirTrailingSlash()
    ensures Subdir("tpl/src", "tpl/") == "src"
  {
    SubdirAt("tpl/src", "tpl/", "", "src");
  }

  /** A directory below the templates directory maps to its path relative to it. */
  lemma SubdirOfNested(templatesDir: Path, rest: Path)
    ensures Subdir(templatesDir + "/" + rest, templatesDir) == rest
  {
    var root := templatesDir + "/" + rest;
    assert root[..|templatesDir|] == templatesDir;
    assert IndexOf(root, templatesDir) == Some(0);
    assert root[|templatesDir|..] == "/" + rest;
  }

  /** The templates directory itself maps to the empty subdir. */
  lemma SubdirOfTemplatesRoot(templatesDir: Path)
    ensures Subdir(templatesDir, templatesDir) == ""
  {
    assert templatesDir[..|templatesDir|] == templatesDir;
  }

  /** One invocation of a generator function: which template, and where to write. */
  datatype Config = Config(templatesDir: Path, targetDir: Path, fileName: string, root: Path)

  /** Where the template text is read from: `path.join(root, file_name)`. */
  function TemplateSource(cfg: Config): Path
  {
    Join(cfg.root, cfg.fileName)
  }

  /** The template's path relative to the templates directory. */
  function RelativeTemplatePath(cfg: Config): Path
  {
    Join(Subdir(cfg.root, cfg.templatesDir), cfg.fileName)
  }

  /** The output file for a resolved name: target directory, then subdir, then the name. */
  function OutputPath(cfg: Config, name: string): Path
  {
    Join(Join(cfg.targetDir, Subdir(cfg.root, cfg.templatesDir)), name)
  }

  /** The output file of a template written under its own name. */
  function GeneratedPath(cfg: Config): (r: Path)
    ensures r == OutputPath(cfg, cfg.fileName)
  {
    JoinAssociative(cfg.targetDir, Subdir(cfg.root, cfg.templatesDir), cfg.fileName);
    Join(cfg.targetDir, RelativeTemplatePath(cfg))
  }
}
