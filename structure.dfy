/**
 * The inputs the generator works on: the project structure with its domain
 * descriptors and module list, the DTO and data descriptors, the shared
 * module options, and the render contexts built from them. The renderer and
 * the case transforms are collaborators whose code is not part of this model;
 * they are carried as opaque functions in `Env`.
 */
module Structure {
  import opened Wrappers

  /** A value the generator only passes through to the renderer. */
  datatype Json =
    | JNull
    | JBool(b: bool)
    | JNumber(n: int)
    | JString(s: string)
    | JArray(items: seq<Json>)
    | JObject(members: seq<(string, Json)>)

  /** One domain (controller, service and module files are generated per domain). */
  datatype DomainDescriptor = DomainDescriptor(
    domainName: string,
    decoratorMethod: Json,
    domainInfo: Json,
    importRequestDto: Json,
    serviceImportRequestDto: Json,
    rootPath: Json,
    router: Json)

  /** One DTO or data class. */
  datatype ClassDescriptor = ClassDescriptor(
    className: string,
    classValidatorList: Json,
    importRequestDto: Json,
    variableList: Json)

  /** A value of the project structure: the list under `modules`, or a domain descriptor. */
  datatype Entry = ModuleList(modules: Json) | Domain(descriptor: DomainDescriptor)

  /** The project structure: its own keys, in order, with their values. */
  type ProjectStructure = seq<(string, Entry)>

  /**
   * An entry read as a domain descriptor. A module list read that way has
   * every field undefined; the case transforms treat undefined as "".
   */
  function AsDomain(e: Entry): (d: DomainDescriptor)
    ensures e.Domain? ==> d == e.descriptor
  {
    match e
    case Domain(d) => d
    case ModuleList(_) => DomainDescriptor("", JNull, JNull, JNull, JNull, JNull, JNull)
  }

  /** `structure[key]`: the value under the first entry with that key, if any. */
  function Lookup(structure: ProjectStructure, key: string): (r: Option<Entry>)
    ensures r.Some? ==> (key, r.value) in structure
    ensures r.None? ==> forall i :: 0 <= i < |structure| ==> structure[i].0 != key
  {
    if structure == [] then None
    else if structure[0].0 == key then Some(structure[0].1)
    else Lookup(structure[1..], key)
  }

  /** The messaging toggle: falsy, the `"clear"` sentinel, or an object with two roles. */
  datatype Kafka = Disabled | Cleared | Roles(producer: bool, consumer: bool)

  /** The value of the shared module options at one moment. */
  datatype OptionsValue = OptionsValue(database: string, kafka: Kafka, variableType: Option<string>)

  /** The variables a template is rendered with, besides the two brace literals. */
  datatype Vars =
    | DomainVars(domain: DomainDescriptor)
    | ClassVars(descriptor: ClassDescriptor)
    | ModulesVars(modules: Option<Entry>)
    | SwaggerVars(swagger: Json)
    | OptionsVars(moduleOptions: OptionsValue)

  /**
   * A render context: an object holding `openbrace`, `closebrace` and the
   * variables, or the raw project structure itself.
   */
  datatype Context = Braced(openbrace: string, closebrace: string, vars: Vars) | Whole(structure: ProjectStructure)

  /** The context of every specialised template: the two brace literals plus `vars`. */
  function WithBraces(vars: Vars): (c: Context)
    ensures c.Braced? && c.openbrace == "{" && c.closebrace == "}" && c.vars == vars
  {
    Braced("{", "}", vars)
  }

  /** The collaborators: lodash case transforms, `setPascalCase`, and Handlebars compile-and-render. */
  datatype Env = Env(
    kebabCase: string -> string,
    camelCase: string -> string,
    pascalCase: string -> string,
    render: (string, Context) -> string)

  /** The shared `moduleOptions` object, which the feature toggles update in place. */
  class ModuleOptions {
    var database: string
    var kafka: Kafka
    var variableType: Option<string>

    constructor (database: string, kafka: Kafka)
      ensures Value() == OptionsValue(database, kafka, None)
    {
      this.database := database;
      this.kafka := kafka;
      this.variableType := None;
    }

    function Value(): OptionsValue
      reads this
    {
      OptionsValue(database, kafka, variableType)
    }
  }
}
