/**
 * The per-entity generators: `domainGenerateFiles`, `dtoGenerateFile` and
 * `dataGenerateFile` render one template once per own key of a descriptor
 * collection and write each result under the entity's resolved file name.
 */
module PerEntry {
  import opened Paths
  import opened FileTree
  import opened Structure
  import opened Naming

  /** The values of `entries` whose key is not excluded, in key order. */
  function Elements<T>(entries: seq<(string, T)>, excluded: set<string>): seq<T>
    decreases |entries|
  {
    if entries == [] then []
    else
      var last := entries[|entries| - 1];
      Elements(entries[..|entries| - 1], excluded) + (if last.0 in excluded then [] else [last.1])
  }

  /** The keys of `entries`, in order. */
  function Keys<T>(entries: seq<(string, T)>): (ks: seq<string>)
    ensures |ks| == |entries|
    ensures forall i :: 0 <= i < |entries| ==> ks[i] == entries[i].0
  {
    seq(|entries|, i requires 0 <= i < |entries| => entries[i].0)
  }

  /** One write per element, in order. */
  function EntryWrites<T>(els: seq<T>, writer: T -> FileWrite): (ws: seq<FileWrite>)
  {
    seq(|els|, j requires 0 <= j < |els| => writer(els[j]))
  }

  /** Every key not excluded contributes one element, every excluded key none. */
  lemma {:induction false} ElementsCount<T>(entries: seq<(string, T)>, excluded: set<string>)
    ensures |Elements(entries, excluded)| == |entries| - |set i | 0 <= i < |entries| && entries[i].0 in excluded|
    decreases |entries|
  {
    if entries != [] {
      var n := |entries| - 1;
      ElementsCount(entries[..n], excluded);
      var before := set i | 0 <= i < n && entries[..n][i].0 in excluded;
      var all := set i | 0 <= i < |entries| && entries[i].0 in excluded;
      if entries[n].0 in excluded {
        assert all == before + {n};
      } else {
        assert all == before;
      }
    }
  }

  /** With no key excluded, the elements are exactly the values, in key order. */
  lemma {:induction false} ElementsAll<T>(entries: seq<(string, T)>)
    ensures Elements(entries, {}) == seq(|entries|, i requires 0 <= i < |entries| => entries[i].1)
    decreases |entries|
  {
    if entries != [] {
      ElementsAll(entries[..|entries| - 1]);
    }
  }

  /** When no key is excluded in fact, the exclusion set makes no difference. */
  lemma {:induction false} ElementsNoExcludedKey<T>(entries: seq<(string, T)>, excluded: set<string>)
    requires forall i :: 0 <= i < |entries| ==> entries[i].0 !in excluded
    ensures Elements(entries, excluded) == Elements(entries, {})
    decreases |entries|
  {
    if entries != [] {
      ElementsNoExcludedKey(entries[..|entries| - 1], excluded);
    }
  }

  /** Every element comes from an entry whose key is not excluded. */
  lemma {:induction false} ElementsFromKeptKeys<T>(entries: seq<(string, T)>, excluded: set<string>)
    ensures forall x :: x in Elements(entries, excluded) ==> exists k :: k !in excluded && (k, x) in entries
    decreases |entries|
  {
    if entries != [] {
      var n := |entries| - 1;
      ElementsFromKeptKeys(entries[..n], excluded);
      forall x | x in Elements(entries, excluded)
        ensures exists k :: k !in excluded && (k, x) in entries
      {
        if x in Elements(entries[..n], excluded) {
          var k :| k !in excluded && (k, x) in entries[..n];
          assert (k, x) in entries;
        } else {
          assert (entries[n].0, x) == entries[n];
        }
      }
    }
  }

  /** Writes one file per non-excluded entry, in key order. */
  method EmitPerKey<T>(entries: seq<(string, T)>, excluded: set<string>, writer: T -> FileWrite, tree: Tree)
    modifies tree
    ensures tree.files == ApplyWrites(old(tree.files), EntryWrites(Elements(entries, excluded), writer))
  {
    var i := 0;
    while i < |entries|
      invariant 0 <= i <= |entries|
      invariant tree.files == ApplyWrites(old(tree.files), EntryWrites(Elements(entries[..i], excluded), writer))
    {
      var (key, element) := entries[i];
      assert entries[..i + 1][..i] == entries[..i];
      ghost var done := Elements(entries[..i], excluded);
      if key !in excluded {
        var w := writer(element);
        tree.Write(w.path, w.content);
        assert Elements(entries[..i + 1], excluded) == done + [element];
        ghost var ws := EntryWrites(done, writer);
        assert EntryWrites(done + [element], writer) == ws + [w];
        assert (ws + [w])[..|ws|] == ws;
      } else {
        assert Elements(entries[..i + 1], excluded) == done;
      }
      i := i + 1;
    }
    assert entries[..|entries|] == entries;
  }

  /** The key of the project structure that holds the module list and yields no domain file. */
  const MODULES_KEY: string := "modules"

  /** The domain file of descriptor `d`, rendered from template text `text`. */
  function DomainWrite(cfg: Config, text: string, env: Env, d: DomainDescriptor): FileWrite
  {
    FileWrite(
      OutputPath(cfg, ResolveFileName(DomainPlaceholder, cfg.fileName, d.domainName, env)),
      env.render(text, WithBraces(DomainVars(d))))
  }

  function DomainWriter(cfg: Config, text: string, env: Env): Entry -> FileWrite
  {
    e => DomainWrite(cfg, text, env, AsDomain(e))
  }

  /** The class file of descriptor `c` for a DTO or data template. */
  function ClassWrite(p: Placeholder, cfg: Config, text: string, env: Env, c: ClassDescriptor): FileWrite
  {
    FileWrite(
      OutputPath(cfg, ResolveFileName(p, cfg.fileName, c.className, env)),
      env.render(text, WithBraces(ClassVars(c))))
  }

  function ClassWriter(p: Placeholder, cfg: Config, text: string, env: Env): ClassDescriptor -> FileWrite
  {
    c => ClassWrite(p, cfg, text, env, c)
  }

  /** The writes of `domainGenerateFiles`: none when the template cannot be read. */
  function DomainWrites(cfg: Config, templates: map<Path, string>, structure: ProjectStructure, env: Env): seq<FileWrite>
  {
    if TemplateSource(cfg) in templates
    then EntryWrites(Elements(structure, {MODULES_KEY}), DomainWriter(cfg, templates[TemplateSource(cfg)], env))
    else []
  }

  /** The writes of `dtoGenerateFile` (placeholder `---`) or `dataGenerateFile` (placeholder `===`). */
  function ClassWrites(p: Placeholder, cfg: Config, templates: map<Path, string>, list: seq<(string, ClassDescriptor)>, env: Env): seq<FileWrite>
  {
    if TemplateSource(cfg) in templates
    then EntryWrites(Elements(list, {}), ClassWriter(p, cfg, templates[TemplateSource(cfg)], env))
    else []
  }

  method DomainGenerateFiles(cfg: Config, templates: map<Path, string>, structure: ProjectStructure, env: Env, tree: Tree)
    modifies tree
    ensures tree.files == ApplyWrites(old(tree.files), DomainWrites(cfg, templates, structure, env))
  {
    if TemplateSource(cfg) in templates {
      var text := templates[TemplateSource(cfg)];
      EmitPerKey(structure, {MODULES_KEY}, DomainWriter(cfg, text, env), tree);
    }
  }

  method DtoGenerateFile(cfg: Config, templates: map<Path, string>, dtoObjectList: seq<(string, ClassDescriptor)>, env: Env, tree: Tree)
    modifies tree
    ensures tree.files == ApplyWrites(old(tree.files), ClassWrites(DtoPlaceholder, cfg, templates, dtoObjectList, env))
  {
    if TemplateSource(cfg) in templates {
      var text := templates[TemplateSource(cfg)];
      EmitPerKey(dtoObjectList, {}, ClassWriter(DtoPlaceholder, cfg, text, env), tree);
    }
  }

  method DataGenerateFile(cfg: Config, templates: map<Path, string>, dataObjectList: seq<(string, ClassDescriptor)>, env: Env, tree: Tree)
    modifies tree
    ensures tree.files == ApplyWrites(old(tree.files), ClassWrites(DataPlaceholder, cfg, templates, dataObjectList, env))
  {
    if TemplateSource(cfg) in templates {
      var text := templates[TemplateSource(cfg)];
      EmitPerKey(dataObjectList, {}, ClassWriter(DataPlaceholder, cfg, text, env), tree);
    }
  }
}

module PerEntryProperties {
  import opened Strings
  import opened Paths
  import opened FileTree
  import opened Structure
  import opened Naming
  import opened PerEntry

  /** Own keys of an object are distinct. */
  predicate DistinctKeys<T>(entries: seq<(string, T)>)
  {
    forall i, j :: 0 <= i < j < |entries| ==> entries[i].0 != entries[j].0
  }

  /** An entry under an excluded key changes nothing, wherever it stands. */
  lemma {:induction false} ElementsSkipExcluded<T>(a: seq<(string, T)>, b: seq<(string, T)>, key: string, v: T, excluded: set<string>)
    requires key in excluded
    ensures Elements(a + [(key, v)] + b, excluded) == Elements(a + b, excluded)
    decreases |b|
  {
    if b == [] {
      assert a + [(key, v)] + b == a + [(key, v)];
      assert (a + [(key, v)])[..|a|] == a;
      assert a + b == a;
    } else {
      var n := |b| - 1;
      ElementsSkipExcluded(a, b[..n], key, v, excluded);
      assert (a + [(key, v)] + b)[..|a| + 1 + n] == a + [(key, v)] + b[..n];
      assert (a + b)[..|a| + n] == a + b[..n];
    }
  }

  /**
   * `domainGenerateFiles` targets one file per own key of the project
   * structure except `modules`, each at the domain's resolved file name.
   */
  lemma DomainFilesOnePerKey(cfg: Config, templates: map<Path, string>, structure: ProjectStructure, env: Env)
    requires TemplateSource(cfg) in templates
    requires DistinctKeys(structure)
    ensures var ws := DomainWrites(cfg, templates, structure, env);
      && |ws| == |structure| - (if MODULES_KEY in Keys(structure) then 1 else 0)
      && forall j :: 0 <= j < |ws| ==>
           var d := AsDomain(Elements(structure, {MODULES_KEY})[j]);
           ws[j].path == OutputPath(cfg, ResolveFileName(DomainPlaceholder, cfg.fileName, d.domainName, env))
           && ws[j].content == env.render(templates[TemplateSource(cfg)], WithBraces(DomainVars(d)))
  {
    ElementsCount(structure, {MODULES_KEY});
    var hits := set i | 0 <= i < |structure| && structure[i].0 in {MODULES_KEY};
    if MODULES_KEY in Keys(structure) {
      var i0 :| 0 <= i0 < |structure| && structure[i0].0 == MODULES_KEY;
      assert hits == {i0};
    } else {
      assert hits == {};
    }
  }

  /** The `modules` entry never yields a file: the writes are those of the structure without it. */
  lemma DomainFilesIgnoreModules(cfg: Config, templates: map<Path, string>, a: ProjectStructure, b: ProjectStructure, modules: Entry, env: Env)
    ensures DomainWrites(cfg, templates, a + [(MODULES_KEY, modules)] + b, env) == DomainWrites(cfg, templates, a + b, env)
  {
    ElementsSkipExcluded(a, b, MODULES_KEY, modules, {MODULES_KEY});
  }

  /**
   * With no `modules` key, the descriptor under every key yields a write,
   * in key order, at its resolved name and rendered from its variables.
   */
  lemma DomainFilesInKeyOrder(cfg: Config, templates: map<Path, string>, structure: ProjectStructure, env: Env)
    requires TemplateSource(cfg) in templates
    requires forall i :: 0 <= i < |structure| ==> structure[i].0 != MODULES_KEY
    ensures var ws := DomainWrites(cfg, templates, structure, env);
      && |ws| == |structure|
      && forall j :: 0 <= j < |structure| ==>
           var d := AsDomain(structure[j].1);
           ws[j].path == OutputPath(cfg, ResolveFileName(DomainPlaceholder, cfg.fileName, d.domainName, env))
           && ws[j].content == env.render(templates[TemplateSource(cfg)], WithBraces(DomainVars(d)))
  {
    ElementsNoExcludedKey(structure, {MODULES_KEY});
    ElementsAll(structure);
  }

  /**
   * With the `modules` entry between `a` and `b`: the writes are those of
   * the descriptors of `a + b`, one per key, in key order.
   */
  lemma DomainFilesAroundModules(cfg: Config, templates: map<Path, string>, a: ProjectStructure, b: ProjectStructure, modules: Entry, env: Env)
    requires TemplateSource(cfg) in templates
    requires forall i :: 0 <= i < |a + b| ==> (a + b)[i].0 != MODULES_KEY
    ensures var ws := DomainWrites(cfg, templates, a + [(MODULES_KEY, modules)] + b, env);
      && |ws| == |a + b|
      && forall j :: 0 <= j < |a + b| ==>
           var d := AsDomain((a + b)[j].1);
           ws[j].path == OutputPath(cfg, ResolveFileName(DomainPlaceholder, cfg.fileName, d.domainName, env))
           && ws[j].content == env.render(templates[TemplateSource(cfg)], WithBraces(DomainVars(d)))
  {
    DomainFilesIgnoreModules(cfg, templates, a, b, modules, env);
    DomainFilesInKeyOrder(cfg, templates, a + b, env);
  }

  /** Every domain file comes from a key other than `modules`. */
  lemma DomainFilesFromDomainKeys(cfg: Config, templates: map<Path, string>, structure: ProjectStructure, env: Env)
    ensures forall w :: w in DomainWrites(cfg, templates, structure, env) ==>
      exists k, e :: k != MODULES_KEY && (k, e) in structure && w == DomainWrite(cfg, templates[TemplateSource(cfg)], env, AsDomain(e))
  {
    ElementsFromKeptKeys(structure, {MODULES_KEY});
    var ws := DomainWrites(cfg, templates, structure, env);
    forall w | w in ws
      ensures exists k, e :: k != MODULES_KEY && (k, e) in structure && w == DomainWrite(cfg, templates[TemplateSource(cfg)], env, AsDomain(e))
    {
      var els := Elements(structure, {MODULES_KEY});
      var j :| 0 <= j < |ws| && ws[j] == w;
      assert els[j] in els;
      var k :| k !in {MODULES_KEY} && (k, els[j]) in structure;
    }
  }

  /**
   * When the domain template name lacks `___`, every domain writes the same
   * file, the template's own name under the subdir: later domains overwrite earlier ones.
   */
  lemma DomainFilesCollideWithoutToken(cfg: Config, templates: map<Path, string>, structure: ProjectStructure, env: Env)
    requires !Contains(cfg.fileName, Token(DomainPlaceholder))
    ensures forall w :: w in DomainWrites(cfg, templates, structure, env) ==> w.path == GeneratedPath(cfg)
  {
  }

  /** Without a readable template nothing is written. */
  lemma NoTemplateNoFiles(cfg: Config, templates: map<Path, string>, structure: ProjectStructure,
                          list: seq<(string, ClassDescriptor)>, p: Placeholder, env: Env)
    requires TemplateSource(cfg) !in templates
    ensures DomainWrites(cfg, templates, structure, env) == []
    ensures ClassWrites(p, cfg, templates, list, env) == []
  {
  }

  /**
   * `dtoGenerateFile` and `dataGenerateFile` target one file per own key, in
   * key order, named by replacing the first token with the camel-cased class name.
   */
  lemma ClassFilesOnePerKey(p: Placeholder, cfg: Config, templates: map<Path, string>, list: seq<(string, ClassDescriptor)>, env: Env)
    requires p == DtoPlaceholder || p == DataPlaceholder
    requires TemplateSource(cfg) in templates
    ensures var ws := ClassWrites(p, cfg, templates, list, env);
      && |ws| == |list|
      && forall j :: 0 <= j < |ws| ==>
           ws[j].path == OutputPath(cfg, ReplaceFirst(cfg.fileName, Token(p), env.camelCase(list[j].1.className)))
           && ws[j].content == env.render(templates[TemplateSource(cfg)], WithBraces(ClassVars(list[j].1)))
  {
    ElementsAll(list);
  }

  /**
   * After a per-entity generation the tree holds the old files plus the
   * targeted ones, and every file not targeted is unchanged.
   */
  lemma DomainGenerationFrame(cfg: Config, templates: map<Path, string>, structure: ProjectStructure, env: Env, files: Files)
    ensures var ws := DomainWrites(cfg, templates, structure, env);
      && ApplyWrites(files, ws).Keys == files.Keys + Touched(ws)
      && forall q :: q in files && q !in Touched(ws) ==> ApplyWrites(files, ws)[q] == files[q]
  {
    ApplyWritesFrame(files, DomainWrites(cfg, templates, structure, env));
  }
}
