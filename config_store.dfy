/** src/store/configStore.ts: the session state behind the configurator. Generated ids and
    timestamps are parameters; persistence and logging are outside this model. */
module ConfigStore {
  import opened Wrappers
  import opened Types
  import opened Engine
  import opened Templates
  import opened Lists

  /** What `generatedPrompt` holds when the engine throws. */
  const GenerationError := "Error generating prompt. Please check your configuration."

  /** The text `generatePrompt` stores for an engine outcome. */
  function PromptText(outcome: Result<string, PromptError>): (r: string)
    ensures outcome.Ok? ==> r == outcome.value
    ensures outcome.Err? ==> r == GenerationError
  {
    match outcome
    case Ok(prompt) => prompt
    case Err(_) => GenerationError
  }

  /** `getDefaultConfigurations()`'s result: every UI type mapped to the defaults of its form. */
  function DefaultConfigurations(schemas: Schemas): map<UIType, TemplateConfig>
  {
    map t | t in AllUITypes :: Defaults(SchemaFor(schemas, t).configOptions)
  }

  /** `getDefaultConfigurations`: asks the engine for each type's defaults in turn. The engine
      throws for an unregistered type, so every type must be registered. */
  method GetDefaultConfigurations(engine: TemplateEngine) returns (configs: map<UIType, TemplateConfig>)
    requires forall t :: t in Keys(engine.registry)
    ensures forall t :: t in configs && engine.DefaultConfig(t) == Ok(configs[t])
  {
    var types := AllUITypes;
    configs := map[];
    for i := 0 to |types|
      invariant forall j :: 0 <= j < i ==> types[j] in configs
      invariant forall t :: t in configs ==> engine.DefaultConfig(t) == Ok(configs[t])
    {
      var defaults := engine.GetDefaultConfig(types[i]);
      engine.RegisteredDefaults(types[i]);
      configs := configs[types[i] := defaults.value];
    }
    forall t: UIType ensures t in configs {
      AllUITypesComplete(t);
      var j :| 0 <= j < |types| && types[j] == t;
    }
  }

  /** The registry serves every UI type. */
  lemma RegistryComplete(engine: TemplateEngine, schemas: Schemas)
    requires engine.registry == TemplateRegistryOf(schemas)
    ensures forall t :: t in Keys(engine.registry)
  {
    forall t: UIType ensures t in Keys(engine.registry) {
      AllUITypesComplete(t);
    }
  }

  /** Defaults read from the registry engine are the defaults of each type's own form. */
  lemma LoadedDefaults(engine: TemplateEngine, schemas: Schemas, configs: map<UIType, TemplateConfig>)
    requires engine.registry == TemplateRegistryOf(schemas)
    requires forall t :: t in configs && engine.DefaultConfig(t) == Ok(configs[t])
    ensures configs == DefaultConfigurations(schemas)
  {
    RegistryDefaults(engine, schemas);
    forall t: UIType ensures t in DefaultConfigurations(schemas) {
      AllUITypesComplete(t);
    }
  }

  /** `{ ...current, ...partial }`: the keys of `partial` win, every other key keeps its value. */
  function MergeConfig(current: TemplateConfig, partial: TemplateConfig): (r: TemplateConfig)
    ensures forall k :: k in r <==> k in current || k in partial
    ensures forall k :: k in partial ==> r[k] == partial[k]
    ensures forall k :: k in current && k !in partial ==> r[k] == current[k]
  {
    current + partial
  }

  /** Merging the same update twice is merging it once. */
  lemma MergeIdempotent(current: TemplateConfig, partial: TemplateConfig)
    ensures MergeConfig(MergeConfig(current, partial), partial) == MergeConfig(current, partial)
  {
  }

  /** Merging an empty update changes nothing. */
  lemma MergeEmpty(current: TemplateConfig)
    ensures MergeConfig(current, map[]) == current
  {
  }

  /** `savedConfigs.find((c) => c.id === id)`: the first entry with that id. */
  function FindById(saved: seq<SavedConfiguration>, id: string): (r: Option<SavedConfiguration>)
    ensures r.Some? <==> exists i :: 0 <= i < |saved| && saved[i].id == id
    ensures r.Some? ==> exists i :: 0 <= i < |saved| && saved[i] == r.value && r.value.id == id
                                  && forall j :: 0 <= j < i ==> saved[j].id != id
  {
    if |saved| == 0 then None
    else if saved[0].id == id then Some(saved[0])
    else
      var rest := FindById(saved[1..], id);
      assert rest.Some? ==> exists i :: 1 <= i < |saved| && saved[i] == rest.value && rest.value.id == id
                                   && forall j :: 0 <= j < i ==> saved[j].id != id by {
        if rest.Some? {
          var i :| 0 <= i < |saved[1..]| && saved[1..][i] == rest.value && rest.value.id == id
                   && forall j :: 0 <= j < i ==> saved[1..][j].id != id;
          assert saved[i + 1] == rest.value;
          forall j | 0 <= j < i + 1 ensures saved[j].id != id {
            if j > 0 {
              assert saved[j] == saved[1..][j - 1];
            }
          }
        }
      }
      rest
  }

  /** `savedConfigs.filter((c) => c.id !== id)`. */
  function WithoutId(saved: seq<SavedConfiguration>, id: string): (r: seq<SavedConfiguration>)
    ensures forall i :: 0 <= i < |r| ==> r[i].id != id && r[i] in saved
    ensures forall i :: 0 <= i < |saved| && saved[i].id != id ==> saved[i] in r
    ensures FindById(r, id).None?
  {
    Filter(saved, (c: SavedConfiguration) => c.id != id)
  }

  /** Deleting an id that is not saved changes nothing. */
  lemma DeleteUnknownKeeps(saved: seq<SavedConfiguration>, id: string)
    requires FindById(saved, id).None?
    ensures WithoutId(saved, id) == saved
  {
  }

  /** A saved entry whose id was fresh is the one a later load finds. */
  lemma SavedIsFound(saved: seq<SavedConfiguration>, entry: SavedConfiguration)
    requires FindById(saved, entry.id).None?
    ensures FindById(saved + [entry], entry.id) == Some(entry)
  {
    var all := saved + [entry];
    var r := FindById(all, entry.id);
    assert all[|saved|].id == entry.id;
    var i :| 0 <= i < |all| && all[i] == r.value && r.value.id == entry.id
             && forall j :: 0 <= j < i ==> all[j].id != entry.id;
  }

  /** `saved.techStack || 'React + Tailwind v4'`: a missing stack falls back to React + Tailwind. */
  function StackOrDefault(stack: Option<TechStack>): (r: TechStack)
    ensures stack.Some? ==> r == stack.value
    ensures stack.None? ==> r == ReactTailwind
  {
    if stack.Some? then stack.value else ReactTailwind
  }

  /** A store that holds every type holds the one asked for. */
  lemma EveryTypeIn(configurations: map<UIType, TemplateConfig>, t: UIType)
    requires forall u :: u in configurations
    ensures t in configurations
  {
  }

  class ConfigState {
    const engine: TemplateEngine
    const schemas: Schemas
    var currentUIType: UIType
    var techStack: TechStack
    var configurations: map<UIType, TemplateConfig>
    var generatedPrompt: string
    var savedConfigs: seq<SavedConfiguration>

    /** The store holds a configuration for every type. */
    ghost predicate Valid()
      reads this
    {
      forall t :: t in configurations
    }

    /** The store talks to the engine over the registry. It depends on constants only, so it
        holds for the whole life of a store. */
    ghost predicate Bound()
    {
      engine.registry == TemplateRegistryOf(schemas)
    }

    /** The configuration of the current type. */
    function CurrentConfig(): (r: TemplateConfig)
      reads this
      requires Valid()
      ensures currentUIType in configurations && r == configurations[currentUIType]
    {
      EveryTypeIn(configurations, currentUIType);
      configurations[currentUIType]
    }

    /** What `generatePrompt` would store now. */
    function CurrentPrompt(): string
      reads this
      requires Valid()
    {
      PromptText(engine.Generate(currentUIType, CurrentConfig(), techStack))
    }

    /** Initial state: website, React + Tailwind, the defaults of every form, no prompt, nothing saved. */
    constructor (engine: TemplateEngine, schemas: Schemas)
      requires engine.registry == TemplateRegistryOf(schemas)
      ensures Valid() && Bound() && this.engine == engine && this.schemas == schemas
      ensures currentUIType == Website && techStack == ReactTailwind
      ensures configurations == DefaultConfigurations(schemas)
      ensures generatedPrompt == "" && savedConfigs == []
    {
      RegistryComplete(engine, schemas);
      var configs := GetDefaultConfigurations(engine);
      LoadedDefaults(engine, schemas, configs);
      this.engine := engine;
      this.schemas := schemas;
      currentUIType := Website;
      techStack := ReactTailwind;
      configurations := configs;
      generatedPrompt := "";
      savedConfigs := [];
      new;
    }

    /** `generatePrompt`: the engine's output for the current type, configuration and stack,
        or the fixed error text when it fails. */
    method GeneratePrompt()
      requires Valid()
      modifies this
      ensures Valid()
      ensures generatedPrompt == PromptText(engine.Generate(currentUIType, CurrentConfig(), techStack))
      ensures currentUIType == old(currentUIType) && techStack == old(techStack)
      ensures configurations == old(configurations) && savedConfigs == old(savedConfigs)
    {
      var config := CurrentConfig();
      var outcome := engine.Generate(currentUIType, config, techStack);
      if outcome.Ok? {
        generatedPrompt := outcome.value;
      } else {
        generatedPrompt := GenerationError;
      }
    }

    method SetUIType(t: UIType)
      requires Valid()
      modifies this
      ensures Valid()
      ensures currentUIType == t && generatedPrompt == CurrentPrompt()
      ensures techStack == old(techStack)
      ensures configurations == old(configurations) && savedConfigs == old(savedConfigs)
    {
      currentUIType := t;
      GeneratePrompt();
    }

    method SetTechStack(stack: TechStack)
      requires Valid()
      modifies this
      ensures Valid()
      ensures techStack == stack && generatedPrompt == CurrentPrompt()
      ensures currentUIType == old(currentUIType)
      ensures configurations == old(configurations) && savedConfigs == old(savedConfigs)
    {
      techStack := stack;
      GeneratePrompt();
    }

    /** `updateConfig(type, partial)`: merges into that type's configuration only, and
        regenerates only when that type is the current one. */
    method UpdateConfig(t: UIType, partial: TemplateConfig)
      requires Valid()
      modifies this
      ensures Valid()
      ensures configurations == old(configurations)[t := MergeConfig(old(configurations)[t], partial)]
      ensures t == currentUIType ==> generatedPrompt == CurrentPrompt()
      ensures t != currentUIType ==> generatedPrompt == old(generatedPrompt)
      ensures currentUIType == old(currentUIType) && techStack == old(techStack)
      ensures savedConfigs == old(savedConfigs)
    {
      configurations := configurations[t := MergeConfig(configurations[t], partial)];
      if t == currentUIType {
        GeneratePrompt();
      }
    }

    /** `resetConfig(type)`: that type's configuration goes back to the defaults of its form. */
    method ResetConfig(t: UIType)
      requires Valid() && Bound()
      modifies this
      ensures Valid()
      ensures configurations == old(configurations)[t := Defaults(SchemaFor(schemas, t).configOptions)]
      ensures t == currentUIType ==> generatedPrompt == CurrentPrompt()
      ensures t != currentUIType ==> generatedPrompt == old(generatedPrompt)
      ensures currentUIType == old(currentUIType) && techStack == old(techStack)
      ensures savedConfigs == old(savedConfigs)
    {
      RegistryDispatch(engine, schemas, t, map[], ReactTailwind);
      var defaults := engine.GetDefaultConfig(t);
      configurations := configurations[t := defaults.value];
      if t == currentUIType {
        GeneratePrompt();
      }
    }

    /** `saveConfiguration(name)`: appends one snapshot of the current type, stack and
        configuration; the id and the timestamp are given. */
    method SaveConfiguration(name: string, id: string, timestamp: int)
      requires Valid()
      modifies this
      ensures Valid()
      ensures savedConfigs == old(savedConfigs)
              + [old(SavedConfiguration(id, name, currentUIType, Some(techStack), CurrentConfig(), timestamp))]
      ensures currentUIType == old(currentUIType) && techStack == old(techStack)
      ensures configurations == old(configurations) && generatedPrompt == old(generatedPrompt)
    {
      var entry := SavedConfiguration(id, name, currentUIType, Some(techStack), CurrentConfig(), timestamp);
      savedConfigs := savedConfigs + [entry];
    }

    /** `loadConfiguration(id)`: restores the first snapshot with that id and regenerates;
        an unknown id changes nothing. */
    method LoadConfiguration(id: string)
      requires Valid()
      modifies this
      ensures Valid()
      ensures savedConfigs == old(savedConfigs)
      ensures FindById(old(savedConfigs), id).None? ==>
                currentUIType == old(currentUIType) && techStack == old(techStack)
                && configurations == old(configurations) && generatedPrompt == old(generatedPrompt)
      ensures FindById(old(savedConfigs), id).Some? ==>
                var saved := FindById(old(savedConfigs), id).value;
                currentUIType == saved.uiType && techStack == StackOrDefault(saved.techStack)
                && configurations == old(configurations)[saved.uiType := saved.config]
                && generatedPrompt == CurrentPrompt()
    {
      var found := FindById(savedConfigs, id);
      if found.Some? {
        var saved := found.value;
        currentUIType := saved.uiType;
        techStack := StackOrDefault(saved.techStack);
        configurations := configurations[saved.uiType := saved.config];
        GeneratePrompt();
      }
    }

    method DeleteConfiguration(id: string)
      requires Valid()
      modifies this
      ensures Valid()
      ensures savedConfigs == WithoutId(old(savedConfigs), id)
      ensures currentUIType == old(currentUIType) && techStack == old(techStack)
      ensures configurations == old(configurations) && generatedPrompt == old(generatedPrompt)
    {
      savedConfigs := WithoutId(savedConfigs, id);
    }

    method ClearAllSavedConfigs()
      requires Valid()
      modifies this
      ensures Valid()
      ensures savedConfigs == []
      ensures currentUIType == old(currentUIType) && techStack == old(techStack)
      ensures configurations == old(configurations) && generatedPrompt == old(generatedPrompt)
    {
      savedConfigs := [];
    }

    /** The stored prompt is the output of the current type's own template, or the error text
        exactly when that template cannot read its fields. */
    lemma CurrentPromptIsTemplateOutput()
      requires Valid() && Bound()
      ensures GeneratorFor(currentUIType)(CurrentConfig(), techStack).Ok? ==>
                CurrentPrompt() == GeneratorFor(currentUIType)(CurrentConfig(), techStack).value
      ensures GeneratorFor(currentUIType)(CurrentConfig(), techStack).Err? ==>
                CurrentPrompt() == GenerationError
    {
      RegistryDispatch(engine, schemas, currentUIType, CurrentConfig(), techStack);
    }
  }
}
