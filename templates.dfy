/** src/templates/index.ts: the registry binding each UI type to its form and its
    template, and the single engine built over it. The five forms are declared in files
    outside this model, so they are a parameter. */
module Templates {
  import opened Wrappers
  import opened Types
  import opened Engine
  import WebsiteTemplate
  import DashboardTemplate
  import MobileAppTemplate
  import DesktopAppTemplate
  import ComponentLibraryTemplate

  /** The five forms the registry pairs with the templates. */
  datatype Schemas = Schemas(
    website: UITypeConfig,
    dashboard: UITypeConfig,
    mobileApp: UITypeConfig,
    desktopApp: UITypeConfig,
    componentLibrary: UITypeConfig)

  function SchemaFor(schemas: Schemas, t: UIType): UITypeConfig
  {
    match t
    case Website => schemas.website
    case Dashboard => schemas.dashboard
    case MobileApp => schemas.mobileApp
    case DesktopApp => schemas.desktopApp
    case ComponentLibrary => schemas.componentLibrary
  }

  /** The template each UI type is registered with. */
  function GeneratorFor(t: UIType): PromptTemplate
  {
    match t
    case Website => WebsiteTemplate.Generate
    case Dashboard => DashboardTemplate.Generate
    case MobileApp => MobileAppTemplate.Generate
    case DesktopApp => DesktopAppTemplate.Generate
    case ComponentLibrary => ComponentLibraryTemplate.Generate
  }

  function Entry(schemas: Schemas, t: UIType): RegistryEntry
  {
    RegistryEntry(t, TemplateEntry(SchemaFor(schemas, t), GeneratorFor(t)))
  }

  /** `TEMPLATE_REGISTRY`: one entry per UI type, in declaration order, each pairing the
      type's own form with its own template. */
  function TemplateRegistryOf(schemas: Schemas): (r: TemplateRegistry)
    ensures Keys(r) == AllUITypes
    ensures UniqueKeys(r)
    ensures forall i :: 0 <= i < |r| ==>
              r[i].entry == TemplateEntry(SchemaFor(schemas, r[i].key), GeneratorFor(r[i].key))
  {
    [Entry(schemas, Website), Entry(schemas, Dashboard), Entry(schemas, MobileApp),
     Entry(schemas, DesktopApp), Entry(schemas, ComponentLibrary)]
  }

  /** `templateEngine`: the engine over the registry. */
  method NewTemplateEngine(schemas: Schemas) returns (engine: TemplateEngine)
    ensures fresh(engine)
    ensures engine.Valid() && engine.registry == TemplateRegistryOf(schemas)
  {
    engine := new TemplateEngine(TemplateRegistryOf(schemas));
  }

  /** Over the registry, every UI type is served: generation runs that type's own template,
      the form is that type's own form, and the available types are all five in order. */
  lemma RegistryDispatch(engine: TemplateEngine, schemas: Schemas, t: UIType, config: TemplateConfig,
                         techStack: TechStack)
    requires engine.registry == TemplateRegistryOf(schemas)
    ensures engine.Generate(t, config, techStack) == GeneratorFor(t)(config, techStack)
    ensures engine.GetConfig(t) == Ok(SchemaFor(schemas, t))
    ensures engine.DefaultConfig(t) == Ok(Defaults(SchemaFor(schemas, t).configOptions))
    ensures engine.GetAvailableTypes() == AllUITypes
  {
    var r := engine.registry;
    var i :| 0 <= i < |r| && r[i].key == t by {
      AllUITypesComplete(t);
      assert Keys(r) == AllUITypes;
    }
    assert engine.Valid();
    assert engine.GetConfig(t) == Ok(SchemaFor(schemas, t));
  }

  /** Over the registry, every type's defaults are those of its own form. */
  lemma RegistryDefaults(engine: TemplateEngine, schemas: Schemas)
    requires engine.registry == TemplateRegistryOf(schemas)
    ensures forall t :: engine.DefaultConfig(t) == Ok(Defaults(SchemaFor(schemas, t).configOptions))
  {
    forall t: UIType ensures engine.DefaultConfig(t) == Ok(Defaults(SchemaFor(schemas, t).configOptions)) {
      RegistryDispatch(engine, schemas, t, map[], ReactTailwind);
    }
  }

  /** Every type yields a default configuration holding every option id of its form. */
  lemma RegistryDefaultsValidate(engine: TemplateEngine, schemas: Schemas, t: UIType)
    requires engine.registry == TemplateRegistryOf(schemas)
    ensures engine.DefaultConfig(t).Ok?
    ensures engine.HasAllOptions(SchemaFor(schemas, t), engine.DefaultConfig(t).value)
  {
    RegistryDispatch(engine, schemas, t, map[], ReactTailwind);
    engine.DefaultConfigValidates(t);
  }
}
