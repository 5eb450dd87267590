/**
 * `generateFile`: every template that is not per-entity or a feature toggle
 * is rendered once, with a context chosen by its exact file name, and
 * written at the same relative path under the target directory.
 */
module Dispatch {
  import opened Wrappers
  import opened Paths
  import opened FileTree
  import opened Structure
  import opened PerEntry

  /** The template categories `generateFile` tells apart by file name. */
  datatype Category = ModuleComposition | ApiDoc | Manifest | Verbatim

  const MANIFEST_NAMES: set<string> := {"package.json", "package-lock.json", ".env.local"}
  const API_DOC_NAMES: set<string> := {"swagger.ts", "README.md"}

  function CategoryOf(fileName: string): Category
  {
    if fileName == "app.module.ts" then ModuleComposition
    else if fileName == "swagger.ts" || fileName == "README.md" then ApiDoc
    else if fileName == "package.json" || fileName == "package-lock.json" || fileName == ".env.local" then Manifest
    else Verbatim
  }

  /** The render context of template `fileName`. */
  function ContextFor(fileName: string, structure: ProjectStructure, swaggerInfo: Json, options: OptionsValue): Context
  {
    match CategoryOf(fileName)
    case ModuleComposition => WithBraces(ModulesVars(Lookup(structure, MODULES_KEY)))
    case ApiDoc => WithBraces(SwaggerVars(swaggerInfo))
    case Manifest => WithBraces(OptionsVars(options))
    case Verbatim => Whole(structure)
  }

  /** The one file `generateFile` writes, or nothing when the template cannot be read. */
  function GenerateWrite(cfg: Config, templates: map<Path, string>, structure: ProjectStructure,
                         swaggerInfo: Json, options: OptionsValue, env: Env): (r: Option<FileWrite>)
    ensures r.Some? <==> TemplateSource(cfg) in templates
    ensures r.Some? ==> r.value.path == OutputPath(cfg, cfg.fileName)
  {
    if TemplateSource(cfg) in templates
    then Some(FileWrite(GeneratedPath(cfg), env.render(templates[TemplateSource(cfg)], ContextFor(cfg.fileName, structure, swaggerInfo, options))))
    else None
  }

  method GenerateFile(cfg: Config, templates: map<Path, string>, structure: ProjectStructure,
                      swaggerInfo: Json, moduleOptions: ModuleOptions, env: Env, tree: Tree)
    modifies tree
    ensures var w := GenerateWrite(cfg, templates, structure, swaggerInfo, moduleOptions.Value(), env);
      tree.files == if w.Some? then old(tree.files)[w.value.path := w.value.content] else old(tree.files)
  {
    var source := TemplateSource(cfg);
    if source in templates {
      var text := templates[source];
      var context := ContextFor(cfg.fileName, structure, swaggerInfo, moduleOptions.Value());
      tree.Write(GeneratedPath(cfg), env.render(text, context));
    }
  }

  /** The dispatch table: which file names get which variables. */
  lemma DispatchTable(fileName: string, structure: ProjectStructure, swaggerInfo: Json, options: OptionsValue)
    ensures var c := ContextFor(fileName, structure, swaggerInfo, options);
      && (fileName == "app.module.ts" ==> c == WithBraces(ModulesVars(Lookup(structure, MODULES_KEY))))
      && (fileName in API_DOC_NAMES ==> c == WithBraces(SwaggerVars(swaggerInfo)))
      && (fileName in MANIFEST_NAMES ==> c == WithBraces(OptionsVars(options)))
      && (fileName != "app.module.ts" && fileName !in API_DOC_NAMES && fileName !in MANIFEST_NAMES ==> c == Whole(structure))
  {
  }

  /**
   * Each special template sees only its own source of variables: the
   * composition file only the `modules` entry, the API-doc files only the
   * swagger info, the manifests only the module options.
   */
  lemma ContextSources(fileName: string, s1: ProjectStructure, s2: ProjectStructure,
                       w1: Json, w2: Json, o1: OptionsValue, o2: OptionsValue)
    ensures CategoryOf(fileName) == ModuleComposition && Lookup(s1, MODULES_KEY) == Lookup(s2, MODULES_KEY)
      ==> ContextFor(fileName, s1, w1, o1) == ContextFor(fileName, s2, w2, o2)
    ensures CategoryOf(fileName) == ApiDoc && w1 == w2
      ==> ContextFor(fileName, s1, w1, o1) == ContextFor(fileName, s2, w2, o2)
    ensures CategoryOf(fileName) == Manifest && o1 == o2
      ==> ContextFor(fileName, s1, w1, o1) == ContextFor(fileName, s2, w2, o2)
  {
  }

  /** Only the verbatim templates are rendered without the two brace literals. */
  lemma BracesExceptVerbatim(fileName: string, structure: ProjectStructure, swaggerInfo: Json, options: OptionsValue)
    ensures var c := ContextFor(fileName, structure, swaggerInfo, options);
      c.Braced? <==> CategoryOf(fileName) != Verbatim
    ensures var c := ContextFor(fileName, structure, swaggerInfo, options);
      c.Braced? ==> c.openbrace == "{" && c.closebrace == "}"
  {
  }
}
