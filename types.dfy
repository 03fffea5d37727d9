/** The shapes declared in src/templates/types.ts, and the way a template reads a
    field out of a configuration dictionary. */
module Types {
  import opened Wrappers
  import opened Strings

  /** The closed set of UI archetypes. */
  datatype UIType = Website | Dashboard | MobileApp | DesktopApp | ComponentLibrary

  /** The five UI types in the order the source lists them. */
  const AllUITypes: seq<UIType> := [Website, Dashboard, MobileApp, DesktopApp, ComponentLibrary]

  /** The string value of each UI type (its key in the template registry). */
  function UITypeName(t: UIType): string
  {
    match t
    case Website => "website"
    case Dashboard => "dashboard"
    case MobileApp => "mobileApp"
    case DesktopApp => "desktopApp"
    case ComponentLibrary => "componentLibrary"
  }

  lemma AllUITypesComplete(t: UIType)
    ensures t in AllUITypes
  {
  }

  /** The closed set of two tech stacks. */
  datatype TechStack = ReactTailwind | HtmlCss

  function TechStackLabel(s: TechStack): string
  {
    match s
    case ReactTailwind => "React + Tailwind v4"
    case HtmlCss => "HTML + CSS"
  }

  /** Distinct stacks have distinct labels, so a test on the label is a test on the stack. */
  lemma TechStackLabelInjective(a: TechStack, b: TechStack)
    ensures TechStackLabel(a) == TechStackLabel(b) <==> a == b
  {
  }

  datatype ConfigOptionType = Select | MultiSelect | Text | Textarea | Toggle

  /** A configuration value: the form stores strings, lists of strings and booleans. */
  datatype Value = Str(s: string) | List(items: seq<string>) | Flag(b: bool)

  /** A configuration: option id to value (`TemplateConfig`). */
  type TemplateConfig = map<string, Value>

  /** One form field. `options` is optional and `defaultValue` is untyped in the source,
      so nothing ties the default to the options. */
  datatype ConfigOption = ConfigOption(
    id: string,
    labelText: string,
    kind: ConfigOptionType,
    options: Option<seq<string>>,
    defaultValue: Value,
    description: Option<string>,
    placeholder: Option<string>)

  /** The form of one UI type. */
  datatype UITypeConfig = UITypeConfig(
    uiType: UIType,
    labelText: string,
    icon: string,
    description: string,
    configOptions: seq<ConfigOption>)

  /** What a call into the engine can fail with: the type has no registry entry, or a
      template called a string method on a field that does not hold a string. */
  datatype PromptError = UnknownUIType(uiType: UIType) | NotAString

  /** A template's `generate`: configuration and tech stack to prompt text. */
  type PromptTemplate = (TemplateConfig, TechStack) -> Result<string, PromptError>

  /** One registry entry: a form and the generator that goes with it. */
  datatype TemplateEntry = TemplateEntry(config: UITypeConfig, template: PromptTemplate)

  /** A saved snapshot. `techStack` is optional because entries written before the field
      existed lack it; `saveConfiguration` always fills it in. */
  datatype SavedConfiguration = SavedConfiguration(
    id: string,
    name: string,
    uiType: UIType,
    techStack: Option<TechStack>,
    config: TemplateConfig,
    timestamp: int)

  /** A field a template calls `.includes` or `.toLowerCase` on: present only when it holds a string. */
  function TextField(config: TemplateConfig, key: string): (r: Option<string>)
    ensures r.Some? <==> key in config && config[key].Str?
    ensures r.Some? ==> config[key] == Str(r.value)
  {
    if key in config && config[key].Str? then Some(config[key].s) else None
  }

  /** `Array.isArray(v) ? v : []`. */
  function ListField(config: TemplateConfig, key: string): (r: seq<string>)
    ensures key in config && config[key].List? ==> r == config[key].items
    ensures !(key in config && config[key].List?) ==> r == []
  {
    if key in config && config[key].List? then config[key].items else []
  }

  /** `${v}` in a template literal: an absent field prints `undefined`, an array prints its
      items joined by commas, a boolean prints `true` or `false`. */
  function Interpolate(config: TemplateConfig, key: string): (r: string)
    ensures key !in config ==> r == "undefined"
    ensures TextField(config, key).Some? ==> r == TextField(config, key).value
    ensures key in config && config[key].List? ==> r == Join(ListField(config, key), ",")
    ensures key in config && config[key] == Flag(true) ==> r == "true"
    ensures key in config && config[key] == Flag(false) ==> r == "false"
  {
    if key !in config then "undefined"
    else match config[key]
      case Str(s) => s
      case List(items) => Join(items, ",")
      case Flag(b) => if b then "true" else "false"
  }

  /** JavaScript truthiness of a field: absent, `""` and `false` are falsy; arrays are truthy. */
  predicate Truthy(config: TemplateConfig, key: string)
  {
    key in config &&
    match config[key]
    case Str(s) => s != ""
    case List(_) => true
    case Flag(b) => b
  }
}
