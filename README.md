# Template materialisation of swagger-nestjs-codegen

This project models, in Dafny, the file-materialisation engine of the NestJS
scaffolding generator `lib/generateFiles.js`. For each template file the
engine decides the output file name(s), the variables the template is
rendered with, and whether files or whole directories of the target tree are
written, overwritten, unlinked or removed according to the feature toggles in
the shared `moduleOptions` object.

The model abstracts:

- the target file system as a `map<Path, string>` held by the class
  `FileTree.Tree`, whose methods `Write`, `Unlink` and `RemoveTree` stand for
  `fs.writeFile`/`writeFileSync`, `fs.unlinkSync` and `xfs.removeSync`;
- the template directory as a read-only `map<Path, string>`; a template path
  missing from it is a failed `fs.readFile`, after which nothing is written;
- Handlebars compilation and rendering, lodash `kebabCase`/`camelCase` and
  `setPascalCase` as opaque functions carried in `Structure.Env`;
- the shared `moduleOptions` object as the class `Structure.ModuleOptions`,
  whose fields `database`, `kafka` and `variableType` the toggles update in place.

Modules: `Strings` (first-occurrence search and replace, as
`String.prototype.replace` with a string pattern), `Paths` (joining, the
`subdir` computation, output paths), `FileTree`, `Structure` (descriptors,
contexts, options), `Naming` (placeholder tokens), `PerEntry` and
`PerEntryProperties` (`domainGenerateFiles`, `dtoGenerateFile`,
`dataGenerateFile`), `Dispatch` (`generateFile`), `Toggles` and
`ToggleProperties` (`databasesGenerateFile`, `kafkaGenerateFile`).

The per-entity generators and the toggles are methods that change the tree
(and the options) in place; each is proved against a pure function of the
old state (`DomainWrites`, `ClassWrites`, `GenerateWrite`, `DatabaseStep`,
`KafkaStep`), and the lemmas state the generator's promises about those functions.

Points where one might expect other behaviour, and what the code does:

- a template name without its placeholder token might be expected to raise
  an error, since every entity would then write the same file; the code
  passes the name through unchanged (`Naming.ResolveFileName`); for domain templates
  every domain then writes the same file (`DomainFilesCollideWithoutToken`);
- every context might be expected to carry the brace literals; templates
  handled by the final `else` of `generateFile` are rendered with the raw
  project structure and get no `openbrace`/`closebrace` variables
  (`Dispatch.BracesExceptVerbatim`);
- the feature toggles use string sentinels: the disabled database variant is the string `"not"`, the handled one
  `"clear"`; the Kafka toggle is disabled by any falsy value, and its
  `"clear"` sentinel is a truthy string whose `producer` and `consumer` are
  undefined, so a later Kafka pass does nothing (`KafkaNoRoleUnchanged`);
- each toggle call handles one template, so it writes at most one file.

## Model

| member | source | states |
|---|---|---|
| Strings.IndexOf | lib/generateFiles.js:36-39 | the index of the FIRST occurrence of the pattern: the pattern occurs there and at no smaller index; none exactly when the pattern does not occur |
| Strings.ReplaceFirst | lib/generateFiles.js:36-39 | a name without the token is returned unchanged (no error); otherwise the length changes by the difference of replacement and token |
| Strings.ReplaceFirstAt | lib/generateFiles.js:36-39 | reference form of `replace`: for `s == pre + pat + post` with no earlier occurrence, the result is `pre + rep + post` |
| Strings.ReplaceFirstKeepsLater | lib/generateFiles.js:100-103 | only the first occurrence is replaced: a later occurrence of the token is still in the result, shifted |
| Paths.Subdir | lib/generateFiles.js:30-33 | `root` is unchanged when the templates directory does not occur in it, and never grows |
| Paths.SubdirAt | lib/generateFiles.js:30-33 | for `root == pre + templates_dir + post` with no earlier match, the subdir is `pre + post` with one leading `/` of `post` dropped: the first match and an optional `/` are removed, wherever the match stands |
| Paths.SubdirTrailingSlash | lib/generateFiles.js:94-97 | `tpl/src` with templates directory `tpl/` yields `src` |
| Paths.SubdirOfNested | lib/generateFiles.js:30-33 | a directory `templates_dir/rest` yields the subdir `rest` (the templates directory and one `/` removed) |
| Paths.SubdirOfTemplatesRoot | lib/generateFiles.js:30-33 | the templates directory itself yields the empty subdir |
| Paths.GeneratedPath | lib/generateFiles.js:219-223 | target dir joined with the template's relative path equals the per-entity output path of the template's own name |
| FileTree.Removed | lib/generateFiles.js:323 | removing a directory tree keeps exactly the files outside it, with their contents |
| FileTree.ApplyWritesFrame | lib/generateFiles.js:64-67 | after a sequence of writes the tree holds the old paths plus the written ones, and unwritten files keep their content |
| FileTree.ApplyWritesLast | lib/generateFiles.js:64-67 | a written path holds the content of the last write to it |
| FileTree.Tree.Write | lib/generateFiles.js:64-67 | a write creates or overwrites exactly one file |
| FileTree.Tree.Unlink | lib/generateFiles.js:430 | unlinking deletes exactly one existing file |
| FileTree.Tree.RemoveTree | lib/generateFiles.js:323 | the tree under the directory is gone, everything else is kept |
| Structure.Lookup | lib/generateFiles.js:216 | `data.modules`: a value found is an entry of the structure under that key; none when no entry has the key |
| Naming.ResolveFileName | lib/generateFiles.js:36-39 | a template name without the placeholder is passed through unchanged; with it, the length changes by the cased name's length minus the token's |
| Naming.ResolveFileNameAt | lib/generateFiles.js:158-161 | the first token occurrence is replaced by the cased name (`___` kebab, `---` and `===` camel, `database` kebab) and the rest kept verbatim |
| Naming.ResolveLeadingToken | lib/generateFiles.js:100-103 | a name starting with the token becomes the cased name followed by the rest |
| Naming.DtoSecondTokenKept | lib/generateFiles.js:100-103 | `---.---.ts` resolves to camel name + `.---.ts`: a second token is not replaced |
| Naming.DomainNameWithoutToken | lib/generateFiles.js:36-39 | `index.ts` resolves to itself for every domain name |
| PerEntry.ElementsCount | lib/generateFiles.js:18-22 | the elements number the entries minus those under excluded keys |
| PerEntry.ElementsAll | lib/generateFiles.js:84-86 | with no exclusion, the elements are all values in key order |
| PerEntry.ElementsFromKeptKeys | lib/generateFiles.js:18-22 | every element is the value of an entry whose key is not excluded |
| PerEntry.EmitPerKey | lib/generateFiles.js:20-72 | the loop over own keys performs exactly the writes of the non-excluded entries, in key order |
| PerEntry.DomainGenerateFiles | lib/generateFiles.js:17-73 | the tree afterwards is the old tree with the domain writes applied |
| PerEntry.DtoGenerateFile | lib/generateFiles.js:81-131 | the tree afterwards is the old tree with the DTO writes (token `---`) applied |
| PerEntry.DataGenerateFile | lib/generateFiles.js:139-189 | the tree afterwards is the old tree with the data writes (token `===`) applied |
| PerEntryProperties.ElementsSkipExcluded | lib/generateFiles.js:18 | an entry under an excluded key contributes nothing, wherever it stands |
| PerEntryProperties.DomainFilesOnePerKey | lib/generateFiles.js:17-73 | one file per own key other than `modules`, at the domain's resolved name under subdir, rendered from the domain's variables |
| PerEntryProperties.DomainFilesIgnoreModules | lib/generateFiles.js:18-22 | inserting the `modules` entry anywhere leaves the domain writes unchanged |
| PerEntry.ElementsNoExcludedKey | lib/generateFiles.js:20-21 | when no entry has an excluded key, every value is an element, so the exclusion changes nothing |
| PerEntryProperties.DomainFilesInKeyOrder | lib/generateFiles.js:20-45 | with no `modules` key, the descriptor under every key yields exactly one write, in key order, at its resolved name, rendered from its variables |
| PerEntryProperties.DomainFilesAroundModules | lib/generateFiles.js:18-45 | with `modules` between the domain entries, the writes are one per domain key, in key order, and none for `modules` |
| PerEntryProperties.DomainFilesFromDomainKeys | lib/generateFiles.js:18-22 | every domain write comes from an entry whose key is not `modules` |
| PerEntryProperties.DomainFilesCollideWithoutToken | lib/generateFiles.js:36-45 | without `___` in the template name every domain targets the same file |
| PerEntryProperties.NoTemplateNoFiles | lib/generateFiles.js:25-29 | an unreadable template yields no write at all in any per-entity generator, so every tree is left unchanged |
| PerEntryProperties.ClassFilesOnePerKey | lib/generateFiles.js:81-131 | one DTO or data file per own key, in order, named with the first token replaced by the camel-cased class name, rendered from the class variables |
| PerEntryProperties.DomainGenerationFrame | lib/generateFiles.js:41-67 | domain generation adds exactly the targeted paths and leaves every other file unchanged |
| Dispatch.GenerateWrite | lib/generateFiles.js:196-306 | exactly one file is written iff the template is readable, always at target dir + the template's relative path, whatever the category |
| Dispatch.GenerateFile | lib/generateFiles.js:196-306 | the tree afterwards is the old tree plus that one write |
| Dispatch.DispatchTable | lib/generateFiles.js:206-290 | `app.module.ts` gets `modules`; `swagger.ts` and `README.md` get `swagger`; the three manifests get `moduleOptions`; every other name gets the whole structure |
| Dispatch.ContextSources | lib/generateFiles.js:206-284 | the composition file depends only on the `modules` entry, the API-doc files only on the swagger info, the manifests only on the module options |
| Dispatch.BracesExceptVerbatim | lib/generateFiles.js:285-290 | the context has the brace literals exactly when the template is not in the final `else` |
| Toggles.DatabasesGenerateFile | lib/generateFiles.js:314-361 | the options and tree afterwards are `DatabaseStep` of the options and tree before |
| Toggles.KafkaGenerateFile | lib/generateFiles.js:369-465 | the options and tree afterwards are `KafkaStep` of the options and tree before, writing before pruning |
| ToggleProperties.DatabaseOffClears | lib/generateFiles.js:322-327 | `"not"`: the tree becomes the old tree without `target_dir/src/databases`: files outside it are kept with their contents, none under it remains, none is written; `database` becomes `"clear"` |
| ToggleProperties.DatabaseClearedUnchanged | lib/generateFiles.js:328-331 | `"clear"`: options and tree are unchanged |
| ToggleProperties.DatabaseVariantWrites | lib/generateFiles.js:332-358 | another variant: exactly one file, at subdir + the name with its first `database` replaced by the kebab-cased variant, rendered with `variableType` already the PascalCase variant |
| ToggleProperties.DatabaseUnreadableUnchanged | lib/generateFiles.js:332-333 | a variant whose template cannot be read changes nothing, not even `variableType` |
| ToggleProperties.DatabaseStepIdempotent | lib/generateFiles.js:322-358 | a second database pass (after `"not"` or any variant) changes nothing |
| ToggleProperties.DatabaseKeepsKafka | lib/generateFiles.js:314-361 | the database pass does not touch the Kafka toggle |
| ToggleProperties.KafkaDisabledClears | lib/generateFiles.js:377-383 | falsy: the tree becomes the old tree without `target_dir/src/kafka`: files outside it are kept with their contents, none under it remains, none is written; `kafka` becomes `"clear"` |
| ToggleProperties.KafkaNoRoleUnchanged | lib/generateFiles.js:384-463 | `"clear"` or an object with neither role: nothing changes |
| ToggleProperties.KafkaBothRolesWrite | lib/generateFiles.js:384-406 | both roles: the file is written, no file is deleted, and every other file keeps its content |
| ToggleProperties.KafkaProducerOnly | lib/generateFiles.js:407-434 | producer only: the consumer service file is absent afterwards, any other template's file is present, no other file appears, disappears or changes content |
| ToggleProperties.KafkaConsumerOnly | lib/generateFiles.js:435-462 | consumer only: the producer service file is absent afterwards, any other template's file is present, no other file appears, disappears or changes content |
| ToggleProperties.KafkaStepIdempotent | lib/generateFiles.js:377-463 | a second Kafka pass changes nothing |
| ToggleProperties.KafkaKeepsDatabase | lib/generateFiles.js:369-465 | the Kafka pass does not touch `database` or `variableType` |
| ToggleProperties.KafkaPassFrame | lib/generateFiles.js:384-463 | with roles selected, a pass over several templates keeps the options and leaves every file that is no template's output present or absent as before, with its content |
| ToggleProperties.SingleRolePass | lib/generateFiles.js:407-462 | with a single role, after a whole pass the other role's service file is absent and every other template's file exists |
| ToggleProperties.ProducerOnlyPass | lib/generateFiles.js:407-434 | producer only: after a pass rendering both service templates, the producer file exists and the consumer file does not |

## Left out

- Handlebars compilation and rendering, and the custom helpers registered by `./handlebars`: the renderer is an opaque total function of template text and context, so template syntax errors are not modelled.
- lodash `kebabCase`/`camelCase` and `setPascalCase` from `./function`: opaque string functions; that `./function` module is not part of this model, and properties of the transforms themselves (such as idempotence of kebab-casing) are not stated.
- `fs.readFile`/`writeFile` callbacks, the unawaited promises and their concurrency: each call is one sequential step, writes happen in key order, and when two entities resolve to the same file the last one in key order wins; other interleavings are not modelled.
- Error propagation through `reject`: a failed read means no write for that item; write failures (a missing parent directory of the output file, permissions, full disk) are not modelled, and `Tree.Write` always succeeds.
- `path.join`/`path.resolve`/`path.relative` normalisation (`..`, repeated or trailing slashes, absolute segments) and the regular-expression meaning of characters in `templates_dir`: paths are joined with `/`, skipping empty segments, and `subdir` is a first-substring removal; the relative template path is taken to be the subdir joined with the file name, which holds when `root` lies inside `templates_dir`.
- Special `$` patterns in the replacement string of `String.prototype.replace`: the case transforms produce names without `$`.
- The templates and the target tree are separate maps, so a target directory that overlaps the templates directory is not modelled; the template of a per-entity generator is read once rather than once per key, which is equivalent because the store is read-only.
- Fields of `moduleOptions` other than `database`, `kafka` and `variableType`, a `database` that is undefined, and role flags that are truthy non-booleans: the options record has exactly those three fields and the roles are booleans.
- What the rendered files contain (for instance one registration line per module, in order, in `app.module.ts`) is decided by the templates and the renderer; the model shows only which variables each template receives.
- The caller that walks the template tree and invokes these functions is not part of this model.
