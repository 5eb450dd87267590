/**
 * The feature toggles `databasesGenerateFile` and `kafkaGenerateFile`. Each
 * reads the shared module options, may rewrite them, and writes, unlinks or
 * removes files of the target tree. `DatabaseStep` and `KafkaStep` give the
 * state after one call as a function of the state before it.
 */
module Toggles {
  import opened Wrappers
  import opened Strings
  import opened Paths
  import opened FileTree
  import opened Structure
  import opened Naming

  /** The module options and the target tree at one moment. */
  datatype State = State(options: OptionsValue, files: Files)

  /** The database variant that disables the feature, and the sentinel left once it is handled. */
  const DATABASE_OFF: string := "not"
  const CLEARED: string := "clear"

  const CONSUMER_SERVICE: Path := "src/kafka/consumer.service.ts"
  const PRODUCER_SERVICE: Path := "src/kafka/producer.service.ts"

  function DatabasesDir(cfg: Config): Path
  {
    cfg.targetDir + "/src/databases"
  }

  function KafkaDir(cfg: Config): Path
  {
    cfg.targetDir + "/src/kafka"
  }

  /** Where the database template is written for `variant`. */
  function DatabaseFilePath(cfg: Config, variant: string, env: Env): Path
  {
    OutputPath(cfg, ResolveFileName(DatabasePlaceholder, cfg.fileName, variant, env))
  }

  /** The state after `databasesGenerateFile`. */
  function DatabaseStep(cfg: Config, templates: map<Path, string>, env: Env, s: State): State
  {
    var variant := s.options.database;
    if variant == DATABASE_OFF then
      State(s.options.(database := CLEARED), Removed(s.files, DatabasesDir(cfg)))
    else if variant == CLEARED || TemplateSource(cfg) !in templates then
      s
    else
      var options := s.options.(variableType := Some(env.pascalCase(variant)));
      var content := env.render(templates[TemplateSource(cfg)], WithBraces(OptionsVars(options)));
      State(options, s.files[DatabaseFilePath(cfg, variant, env) := content])
  }

  /** `moduleOptions.kafka.producer`: false for the falsy value and for the `"clear"` string. */
  predicate Producer(k: Kafka)
  {
    k.Roles? && k.producer
  }

  predicate Consumer(k: Kafka)
  {
    k.Roles? && k.consumer
  }

  /** The relative path of the service file a single-role selection deletes after writing it. */
  function PrunedService(k: Kafka): Option<Path>
  {
    if Producer(k) && !Consumer(k) then Some(CONSUMER_SERVICE)
    else if Consumer(k) && !Producer(k) then Some(PRODUCER_SERVICE)
    else None
  }

  /** The state after `kafkaGenerateFile`. */
  function KafkaStep(cfg: Config, templates: map<Path, string>, env: Env, s: State): State
  {
    var k := s.options.kafka;
    if k.Disabled? then
      State(s.options.(kafka := Cleared), Removed(s.files, KafkaDir(cfg)))
    else if !(Producer(k) || Consumer(k)) || TemplateSource(cfg) !in templates then
      s
    else
      var target := GeneratedPath(cfg);
      var content := env.render(templates[TemplateSource(cfg)], WithBraces(OptionsVars(s.options)));
      var written := s.files[target := content];
      if PrunedService(k) == Some(RelativeTemplatePath(cfg)) then State(s.options, written - {target})
      else State(s.options, written)
  }

  method DatabasesGenerateFile(cfg: Config, templates: map<Path, string>, env: Env, moduleOptions: ModuleOptions, tree: Tree)
    modifies moduleOptions, tree
    ensures State(moduleOptions.Value(), tree.files)
      == DatabaseStep(cfg, templates, env, State(old(moduleOptions.Value()), old(tree.files)))
  {
    if moduleOptions.database == DATABASE_OFF {
      tree.RemoveTree(DatabasesDir(cfg));
      moduleOptions.database := CLEARED;
    } else if moduleOptions.database != DATABASE_OFF && moduleOptions.database != CLEARED {
      var source := TemplateSource(cfg);
      if source in templates {
        var text := templates[source];
        var target := DatabaseFilePath(cfg, moduleOptions.database, env);
        moduleOptions.variableType := Some(env.pascalCase(moduleOptions.database));
        var content := env.render(text, WithBraces(OptionsVars(moduleOptions.Value())));
        tree.Write(target, content);
      }
    }
  }

  method KafkaGenerateFile(cfg: Config, templates: map<Path, string>, env: Env, moduleOptions: ModuleOptions, tree: Tree)
    modifies moduleOptions, tree
    ensures State(moduleOptions.Value(), tree.files)
      == KafkaStep(cfg, templates, env, State(old(moduleOptions.Value()), old(tree.files)))
  {
    var source := TemplateSource(cfg);
    var k := moduleOptions.kafka;
    if k.Disabled? {
      tree.RemoveTree(KafkaDir(cfg));
      moduleOptions.kafka := Cleared;
    } else if Producer(k) && Consumer(k) {
      if source in templates {
        var content := env.render(templates[source], WithBraces(OptionsVars(moduleOptions.Value())));
        tree.Write(GeneratedPath(cfg), content);
      }
    } else if Producer(k) {
      if source in templates {
        var content := env.render(templates[source], WithBraces(OptionsVars(moduleOptions.Value())));
        var target := GeneratedPath(cfg);
        tree.Write(target, content);
        if RelativeTemplatePath(cfg) == CONSUMER_SERVICE {
          tree.Unlink(target);
        }
      }
    } else if Consumer(k) {
      if source in templates {
        var content := env.render(templates[source], WithBraces(OptionsVars(moduleOptions.Value())));
        var target := GeneratedPath(cfg);
        tree.Write(target, content);
        if RelativeTemplatePath(cfg) == PRODUCER_SERVICE {
          tree.Unlink(target);
        }
      }
    }
  }
}

module ToggleProperties {
  import opened Wrappers
  import opened Strings
  import opened Paths
  import opened FileTree
  import opened Structure
  import opened Naming
  import opened Toggles

  /**
   * Database `"not"`: the databases directory is gone, the option reads
   * `"clear"`, and no file is written.
   */
  lemma DatabaseOffClears(cfg: Config, templates: map<Path, string>, env: Env, s: State)
    requires s.options.database == DATABASE_OFF
    ensures var r := DatabaseStep(cfg, templates, env, s);
      && r.options == s.options.(database := CLEARED)
      && r.files == Removed(s.files, DatabasesDir(cfg))
      && (forall p :: p in s.files && !Under(p, DatabasesDir(cfg)) ==> p in r.files && r.files[p] == s.files[p])
      && (forall p :: p in r.files ==> !Under(p, DatabasesDir(cfg)))
      && r.files.Keys <= s.files.Keys
      && forall p :: p in r.files ==> r.files[p] == s.files[p]
  {
  }

  /** Database `"clear"`: nothing changes. */
  lemma DatabaseClearedUnchanged(cfg: Config, templates: map<Path, string>, env: Env, s: State)
    requires s.options.database == CLEARED
    ensures DatabaseStep(cfg, templates, env, s) == s
  {
  }

  /**
   * Any other variant: exactly one file is written, at the template name
   * with its first `database` replaced by the kebab-cased variant, rendered
   * with `variableType` already set to the PascalCase variant.
   */
  lemma DatabaseVariantWrites(cfg: Config, templates: map<Path, string>, env: Env, s: State, pre: string, post: string)
    requires s.options.database != DATABASE_OFF && s.options.database != CLEARED
    requires TemplateSource(cfg) in templates
    requires cfg.fileName == pre + Token(DatabasePlaceholder) + post
    requires forall j: nat :: j < |pre| ==> !OccursAt(cfg.fileName, Token(DatabasePlaceholder), j)
    ensures var r := DatabaseStep(cfg, templates, env, s);
      var v := s.options.database;
      var target := OutputPath(cfg, pre + env.kebabCase(v) + post);
      && r.options == OptionsValue(v, s.options.kafka, Some(env.pascalCase(v)))
      && r.files.Keys == s.files.Keys + {target}
      && r.files[target] == env.render(templates[TemplateSource(cfg)], WithBraces(OptionsVars(r.options)))
      && forall p :: p in s.files && p != target ==> r.files[p] == s.files[p]
  {
    ResolveFileNameAt(DatabasePlaceholder, cfg.fileName, s.options.database, env, pre, post);
  }

  /** A variant whose template cannot be read changes nothing, not even `variableType`. */
  lemma DatabaseUnreadableUnchanged(cfg: Config, templates: map<Path, string>, env: Env, s: State)
    requires s.options.database != DATABASE_OFF
    requires TemplateSource(cfg) !in templates
    ensures DatabaseStep(cfg, templates, env, s) == s
  {
  }

  /** Running the database step a second time changes nothing, whatever the variant. */
  lemma DatabaseStepIdempotent(cfg: Config, templates: map<Path, string>, env: Env, s: State)
    ensures var r := DatabaseStep(cfg, templates, env, s);
      DatabaseStep(cfg, templates, env, r) == r
  {
    var r := DatabaseStep(cfg, templates, env, s);
    var v := s.options.database;
    if v != DATABASE_OFF && v != CLEARED && TemplateSource(cfg) in templates {
      var target := DatabaseFilePath(cfg, v, env);
      var content := env.render(templates[TemplateSource(cfg)], WithBraces(OptionsVars(r.options)));
      assert r.files[target := content] == r.files;
    }
  }

  /** The database step leaves the Kafka toggle alone. */
  lemma DatabaseKeepsKafka(cfg: Config, templates: map<Path, string>, env: Env, s: State)
    ensures DatabaseStep(cfg, templates, env, s).options.kafka == s.options.kafka
  {
  }

  /** Kafka falsy: the Kafka directory is gone, the option reads `"clear"`, and no file is written. */
  lemma KafkaDisabledClears(cfg: Config, templates: map<Path, string>, env: Env, s: State)
    requires s.options.kafka == Disabled
    ensures var r := KafkaStep(cfg, templates, env, s);
      && r.options == s.options.(kafka := Cleared)
      && r.files == Removed(s.files, KafkaDir(cfg))
      && (forall p :: p in s.files && !Under(p, KafkaDir(cfg)) ==> p in r.files && r.files[p] == s.files[p])
      && (forall p :: p in r.files ==> !Under(p, KafkaDir(cfg)))
      && r.files.Keys <= s.files.Keys
  {
  }

  /** Kafka `"clear"`, or an object with neither role: nothing changes. */
  lemma KafkaNoRoleUnchanged(cfg: Config, templates: map<Path, string>, env: Env, s: State)
    requires s.options.kafka == Cleared || s.options.kafka == Roles(false, false)
    ensures KafkaStep(cfg, templates, env, s) == s
  {
  }

  /** Both roles: the template's file is written and no file is deleted. */
  lemma KafkaBothRolesWrite(cfg: Config, templates: map<Path, string>, env: Env, s: State)
    requires s.options.kafka == Roles(true, true)
    requires TemplateSource(cfg) in templates
    ensures var r := KafkaStep(cfg, templates, env, s);
      && r.options == s.options
      && r.files.Keys == s.files.Keys + {GeneratedPath(cfg)}
      && r.files[GeneratedPath(cfg)] == env.render(templates[TemplateSource(cfg)], WithBraces(OptionsVars(s.options)))
      && forall p :: p in s.files && p != GeneratedPath(cfg) ==> r.files[p] == s.files[p]
  {
  }

  /**
   * Producer only: the consumer service file is absent afterwards; any other
   * template of the Kafka pass is written. Nothing else changes.
   */
  lemma KafkaProducerOnly(cfg: Config, templates: map<Path, string>, env: Env, s: State)
    requires s.options.kafka == Roles(true, false)
    requires TemplateSource(cfg) in templates
    ensures var r := KafkaStep(cfg, templates, env, s);
      && r.options == s.options
      && (RelativeTemplatePath(cfg) == CONSUMER_SERVICE ==> GeneratedPath(cfg) !in r.files)
      && (RelativeTemplatePath(cfg) != CONSUMER_SERVICE ==> GeneratedPath(cfg) in r.files)
      && (forall p :: p != GeneratedPath(cfg) ==> (p in r.files <==> p in s.files))
      && forall p :: p in s.files && p != GeneratedPath(cfg) ==> r.files[p] == s.files[p]
  {
  }

  /** Consumer only: symmetrically, the producer service file is absent afterwards. */
  lemma KafkaConsumerOnly(cfg: Config, templates: map<Path, string>, env: Env, s: State)
    requires s.options.kafka == Roles(false, true)
    requires TemplateSource(cfg) in templates
    ensures var r := KafkaStep(cfg, templates, env, s);
      && r.options == s.options
      && (RelativeTemplatePath(cfg) == PRODUCER_SERVICE ==> GeneratedPath(cfg) !in r.files)
      && (RelativeTemplatePath(cfg) != PRODUCER_SERVICE ==> GeneratedPath(cfg) in r.files)
      && (forall p :: p != GeneratedPath(cfg) ==> (p in r.files <==> p in s.files))
      && forall p :: p in s.files && p != GeneratedPath(cfg) ==> r.files[p] == s.files[p]
  {
  }

  /** Running the Kafka step a second time changes nothing. */
  lemma KafkaStepIdempotent(cfg: Config, templates: map<Path, string>, env: Env, s: State)
    ensures var r := KafkaStep(cfg, templates, env, s);
      KafkaStep(cfg, templates, env, r) == r
  {
    var r := KafkaStep(cfg, templates, env, s);
    var k := s.options.kafka;
    if !k.Disabled? && (Producer(k) || Consumer(k)) && TemplateSource(cfg) in templates {
      var target := GeneratedPath(cfg);
      var content := env.render(templates[TemplateSource(cfg)], WithBraces(OptionsVars(s.options)));
      if PrunedService(k) == Some(RelativeTemplatePath(cfg)) {
        assert r.files[target := content] - {target} == r.files;
      } else {
        assert r.files[target := content] == r.files;
      }
    }
  }

  /** The Kafka step leaves the database option and `variableType` alone. */
  lemma KafkaKeepsDatabase(cfg: Config, templates: map<Path, string>, env: Env, s: State)
    ensures var r := KafkaStep(cfg, templates, env, s);
      r.options.database == s.options.database && r.options.variableType == s.options.variableType
  {
  }

  /** One Kafka pass: the toggle applied to each template of the Kafka directory in turn. */
  function KafkaPass(cfgs: seq<Config>, templates: map<Path, string>, env: Env, s: State): State
    decreases |cfgs|
  {
    if cfgs == [] then s
    else KafkaPass(cfgs[1..], templates, env, KafkaStep(cfgs[0], templates, env, s))
  }

  /** With roles selected, a pass keeps the options and touches only the templates' output files. */
  lemma {:induction false} KafkaPassFrame(cfgs: seq<Config>, templates: map<Path, string>, env: Env, s: State, p: Path)
    requires s.options.kafka.Roles?
    requires forall c :: c in cfgs ==> p != GeneratedPath(c)
    ensures var r := KafkaPass(cfgs, templates, env, s);
      && r.options == s.options
      && (p in r.files <==> p in s.files)
      && (p in s.files ==> r.files[p] == s.files[p])
    decreases |cfgs|
  {
    if cfgs != [] {
      KafkaPassFrame(cfgs[1..], templates, env, KafkaStep(cfgs[0], templates, env, s), p);
    }
  }

  /**
   * A whole pass with a single role selected: afterwards the unselected
   * role's service file is absent and every other template's file exists,
   * although both service templates were rendered.
   */
  lemma {:induction false} SingleRolePass(cfgs: seq<Config>, templates: map<Path, string>, env: Env, s: State)
    requires s.options.kafka.Roles? && PrunedService(s.options.kafka).Some?
    requires forall c :: c in cfgs ==> TemplateSource(c) in templates
    requires forall i, j :: 0 <= i < j < |cfgs| ==> GeneratedPath(cfgs[i]) != GeneratedPath(cfgs[j])
    ensures var r := KafkaPass(cfgs, templates, env, s);
      && r.options == s.options
      && forall c :: c in cfgs ==>
           (GeneratedPath(c) in r.files <==> RelativeTemplatePath(c) != PrunedService(s.options.kafka).value)
    decreases |cfgs|
  {
    if cfgs != [] {
      var s1 := KafkaStep(cfgs[0], templates, env, s);
      var rest := cfgs[1..];
      SingleRolePass(rest, templates, env, s1);
      assert forall c :: c in rest ==> GeneratedPath(cfgs[0]) != GeneratedPath(c) by {
        forall c | c in rest ensures GeneratedPath(cfgs[0]) != GeneratedPath(c) {
          var j :| 0 <= j < |rest| && rest[j] == c;
          assert cfgs[j + 1] == c;
        }
      }
      KafkaPassFrame(rest, templates, env, s1, GeneratedPath(cfgs[0]));
    }
  }

  /** Producer only, over a pass that renders both service templates: the producer file exists, the consumer file does not. */
  lemma ProducerOnlyPass(cfgs: seq<Config>, templates: map<Path, string>, env: Env, s: State, producer: Config, consumer: Config)
    requires s.options.kafka == Roles(true, false)
    requires forall c :: c in cfgs ==> TemplateSource(c) in templates
    requires forall i, j :: 0 <= i < j < |cfgs| ==> GeneratedPath(cfgs[i]) != GeneratedPath(cfgs[j])
    requires producer in cfgs && RelativeTemplatePath(producer) == PRODUCER_SERVICE
    requires consumer in cfgs && RelativeTemplatePath(consumer) == CONSUMER_SERVICE
    ensures var r := KafkaPass(cfgs, templates, env, s);
      GeneratedPath(producer) in r.files && GeneratedPath(consumer) !in r.files
  {
    SingleRolePass(cfgs, templates, env, s);
  }
}
