# prompt-lab core, modelled in Dafny

prompt-lab is a browser tool. The user picks a UI archetype (website, dashboard, mobile
app, desktop app or component library) and a tech stack (React + Tailwind v4, or HTML +
CSS). The user then fills in a form for that archetype and gets an AI-assistant prompt
text. This project models the part of the program that decides what that text is and how
the session state evolves. Everything about the model is proved with the Dafny verifier.

The model covers these parts:

- **Types and field reading** (`types.dfy`). This holds the closed sets of UI types,
  tech stacks and option kinds, and the form, entry and saved-configuration records. It
  also models the three ways a template reads a configuration field:
  - a field the template calls a string method on must hold a string;
  - a list field falls back to the empty list when it holds anything else;
  - a display field is interpolated the way a JavaScript template literal prints it.
- **The template engine** (`engine.dfy`). This is a class over an ordered, keyed
  registry. It has five operations: generate, getConfig, getAvailableTypes,
  getDefaultConfig (a loop) and validateConfig (a loop with an early exit). Beside it are
  the `formatList`, `capitalize` and `toSentenceCase` helpers.
- **The template registry** (`templates.dfy`). This binds each UI type to its own form
  and its own generator, in declaration order, and builds the single engine over them.
- **The design systems** (`design_systems.dfy`). These are the two presets, their
  id-keyed registry, and the mapping from style labels to ids.
- **The five generators** (`website_template.dfy`, `dashboard_template.dfy`,
  `component_library_template.dfy`, `desktop_app_template.dfy`, `mobile_app_template.dfy`).
  - Each prompt is a value: an intro plus titled sections. It renders to exactly the
    text of the source's template literal (`prompts.dfy`).
  - Every first-match `if`/`else if` chain is also written as a rule table in
    `selection.dfy`. A lemma proves that the table's first firing row gives the chain's
    result.
  - The requirement builders that push onto a local array stay imperative methods. Each
    is proved equal to a specification function.
- **The session stores.**
  - `config_store.dfy` is a class whose methods replace the store fields the way the
    source's `set` calls do, including the follow-up prompt regeneration.
  - `ui_store.dfy` covers the theme, the two modal flags and the toast list.
  - `multi_select.dfy` is the toggle rule of the multi-select control.
  - `lists.dfy` models JavaScript's `filter`, which the delete, remove and toggle actions
    share.

A JavaScript `throw` becomes an `Err` of `PromptError`. There are two cases: an
unregistered UI type, and a template calling a string method on a field that does not
hold a string. Only `generatePrompt` catches these in the source. In the model, it turns
them into the fixed error text.

The store's clock and id generator become method parameters: a save takes its id and
timestamp, and a toast takes its id. Persistence, the DOM, logging and timers are not
modelled.

## Model

| member | source | states |
|---|---|---|
| Types.AllUITypesComplete | src/templates/types.ts:3 | The UI types are exactly the five listed, in declaration order |
| Types.TechStackLabelInjective | src/templates/types.ts:6 | The two tech stacks have distinct labels, so testing the label is testing the stack |
| Types.TextField | src/templates/website/websiteTemplate.ts:37 | A field used with string methods is present exactly when it holds a string, and then it is that string |
| Types.Interpolate | src/templates/website/websiteTemplate.ts:25 | `${v}`: an absent field prints `undefined`, a string prints itself, a list prints its items joined by `,`, a boolean prints `true` or `false` |
| Types.ListField | src/templates/website/websiteTemplate.ts:17 | `Array.isArray(v) ? v : []`: an array field gives its items, anything else (or nothing) gives the empty list |
| Engine.Keys | src/templates/templateEngine.ts:40-42 | `Object.keys`: one key per entry, in registry order |
| Engine.Lookup | src/templates/templateEngine.ts:15-19 | A lookup finds an entry exactly when the key is registered, and returns the first entry with that key |
| Engine.LookupUnique | src/templates/templateEngine.ts:15 | With unique keys, looking up an entry's key returns that entry |
| Engine.DefaultsKeys | src/templates/templateEngine.ts:47-56 | The default configuration's keys are exactly the option ids of the form |
| Engine.DefaultsLastWins | src/templates/templateEngine.ts:51-53 | An id holds the default of the last option that declares it |
| Engine.TemplateEngine.RegisteredDefaults | src/templates/templateEngine.ts:47-56 | A registered type's getDefaultConfig does not throw |
| Engine.TemplateEngine.constructor | src/templates/templateEngine.ts:7-9 | The engine keeps the given registry, whose keys are unique |
| Engine.TemplateEngine.Generate | src/templates/templateEngine.ts:14-22 | An unregistered type fails with UnknownUIType; a registered type returns exactly its entry's template output for (config, techStack) |
| Engine.TemplateEngine.GetConfig | src/templates/templateEngine.ts:27-35 | An unregistered type fails; a registered type returns its form unchanged |
| Engine.TemplateEngine.GetAvailableTypes | src/templates/templateEngine.ts:40-42 | The registry keys in insertion order |
| Engine.TemplateEngine.GetDefaultConfig | src/templates/templateEngine.ts:47-56 | The `forEach` loop builds the map written by each option's default in turn, and fails exactly when getConfig fails |
| Engine.TemplateEngine.ValidateConfig | src/templates/templateEngine.ts:61-72 | Fails for an unregistered type; otherwise true iff every declared option id is a key of the config (extra keys and value shapes are ignored) |
| Engine.TemplateEngine.DefaultConfigValidates | src/templates/templateEngine.ts:47-72 | The defaults of a registered type always pass validation |
| Engine.FormatList | src/templates/templateEngine.ts:75-78 | No items give `""`, one item gives that item, two items give `a <conjunction> b` |
| Engine.FormatListShape | src/templates/templateEngine.ts:75-81 | For three or more items: the items joined by ", " with the conjunction before the last |
| Engine.FormatListMentionsAll | src/templates/templateEngine.ts:75-81 | Every item occurs in the formatted list, whatever its length |
| Engine.FormatListSnoc | src/templates/templateEngine.ts:80 | Appending an item to a list of at least two keeps the earlier items and their commas |
| Engine.Capitalize | src/templates/templateEngine.ts:83-85 | Same length; first character upper-cased; rest kept |
| Engine.CapitalizeIdempotent | src/templates/templateEngine.ts:83-85 | Capitalizing twice is capitalizing once |
| Engine.SpaceBeforeUpper | src/templates/templateEngine.ts:89 | The replacement adds exactly one character per upper-case letter of the input |
| Engine.SpaceBeforeEachUpper | src/templates/templateEngine.ts:89 | Every upper-case letter of the replaced string has a space right before it |
| Engine.ToSentenceCase | src/templates/templateEngine.ts:87-92 | The result is empty or starts and ends with a non-whitespace character (its full shape is stated by `SentenceCaseSpaced`) |
| Engine.RemoveInsertedSpaces | src/templates/templateEngine.ts:89 | For input without whitespace, dropping the spaces from the replacement gives back the input |
| Engine.SentenceCaseSpaced | src/templates/templateEngine.ts:87-92 | For a non-empty identifier without whitespace, `toSentenceCase` is its first letter upper-cased followed by the rest with a space before each upper-case letter |
| Engine.SentenceCaseOnlyAddsSpaces | src/templates/templateEngine.ts:87-92 | For a camelCase identifier, removing the spaces from its sentence case gives `capitalize` of it |
| Templates.TemplateRegistryOf | src/templates/index.ts:10-31 | The registry has the five types as keys in declaration order, each once, each with its own form and its own generator |
| Templates.NewTemplateEngine | src/templates/index.ts:33 | The single engine is a new object over that registry |
| Templates.RegistryDispatch | src/templates/index.ts:10-33 | Over the registry, every type is served: generate runs that type's own generator, getConfig returns its own form, defaults are its form's defaults, and the available types are the five in order |
| Templates.RegistryDefaults | src/templates/index.ts:10-33 | Over the registry, every type's defaults are those of its own form |
| Templates.RegistryDefaultsValidate | src/templates/index.ts:10-33 | Every type's defaults exist and pass validation |
| DesignSystems.GetDesignSystem | src/config/designSystems.ts:240-242 | A preset is found exactly for a registered id, and its own id is that id |
| DesignSystems.LookupIn | src/config/designSystems.ts:241 | Record lookup: found iff some entry has the key, and then the value stored with it |
| DesignSystems.GetDesignSystemNames | src/config/designSystems.ts:247-249 | One name per registered preset, in registry order |
| DesignSystems.NamesOf | src/config/designSystems.ts:248 | `map(ds => ds.name)` keeps length and order |
| DesignSystems.MapAestheticToDesignSystem | src/config/designSystems.ts:254-260 | A label maps iff it is exactly one of the two preset names (case-sensitive) |
| DesignSystems.RegisteredIds | src/config/designSystems.ts:232-235 | Exactly the glass and modern-clean ids are registered |
| DesignSystems.LookupRegistered | src/config/designSystems.ts:232-242 | Each registered id retrieves its own preset |
| DesignSystems.KeysAreIds | src/config/designSystems.ts:232-235 | Each registry key equals the id inside its preset |
| DesignSystems.MappedLabelIsName | src/config/designSystems.ts:254-260 | A label that maps leads to a registered preset whose name is that label |
| DesignSystems.NamesInOrder | src/config/designSystems.ts:247-249 | The names are the glass preset's, then Modern Clean's |
| DesignSystems.GlassBackground | src/config/designSystems.ts:83 | The glass preset's background is `hsl(0 0% 100%)` |
| WebsiteTemplate.ReadFields | src/templates/website/websiteTemplate.ts:7-17 | Generation can proceed iff websiteType, aestheticStyle and copywritingTone hold strings; the components list falls back to empty |
| WebsiteTemplate.ComponentLines | src/templates/website/websiteTemplate.ts:94-104 | At most one bullet per component rule |
| WebsiteTemplate.TypeChoice | src/templates/website/websiteTemplate.ts:60-76 | Type bullets follow the first match of E-commerce, SaaS, Portfolio, Landing; no match gives none |
| WebsiteTemplate.StyleChoice | src/templates/website/websiteTemplate.ts:79-91 | Style bullets follow the first match of (SaaS or Clean), Minimalist, Glassmorphism, Brutalist; no match gives none |
| WebsiteTemplate.ComponentLinesAre | src/templates/website/websiteTemplate.ts:94-104 | Pricing, Testimonials and FAQ bullets are added independently, in that order, each iff some component contains the word |
| WebsiteTemplate.GenerateRequirements | src/templates/website/websiteTemplate.ts:52-107 | The pushes yield type bullets, then style bullets, then component bullets, joined by newlines |
| WebsiteTemplate.PushTypeRequirements | src/templates/website/websiteTemplate.ts:60-76 | The if-chain pushes exactly the first matching type block after what is already there |
| WebsiteTemplate.PushStyleRequirements | src/templates/website/websiteTemplate.ts:79-91 | The if-chain pushes exactly the first matching style block |
| WebsiteTemplate.PushComponentRequirements | src/templates/website/websiteTemplate.ts:94-104 | The three independent ifs push the component bullets in order |
| WebsiteTemplate.TypeBlockSize | src/templates/website/websiteTemplate.ts:60-76 | A matching type contributes exactly 3 bullets, no match none |
| WebsiteTemplate.StyleBlockSize | src/templates/website/websiteTemplate.ts:79-91 | A matching style contributes exactly 2 bullets, no match none |
| WebsiteTemplate.RequirementsEmptyIffNoRule | src/templates/website/websiteTemplate.ts:57-106 | The joined requirements are `""` iff no type, style or component rule fires |
| WebsiteTemplate.ScaleWithUnit | src/templates/website/websiteTemplate.ts:145 | One entry per scale step, each the step followed by the unit |
| WebsiteTemplate.GlassLines | src/templates/website/websiteTemplate.ts:117-205 | The detailed section starts with a blank line and ends with the stack-dependent Tailwind block |
| WebsiteTemplate.BasicLines | src/templates/website/websiteTemplate.ts:209-215 | The basic section is seven lines starting with a blank one |
| WebsiteTemplate.GuidelinesEmptyIffUnmapped | src/templates/website/websiteTemplate.ts:109-216 | `generateDesignSystemGuidelines` (`DesignSystemGuidelines`) is `""` iff the style label maps to no design system |
| WebsiteTemplate.GlassGuidelines | src/templates/website/websiteTemplate.ts:117-205 | The glass label gets the detailed section of the glass preset |
| WebsiteTemplate.ModernCleanGuidelines | src/templates/website/websiteTemplate.ts:209-215 | The Modern Clean label gets only the basic section |
| WebsiteTemplate.TailwindBlockIffReact | src/templates/website/websiteTemplate.ts:198-205 | The Tailwind v4 block is present iff the stack is React + Tailwind v4 |
| WebsiteTemplate.BasicLinesFeatures | src/templates/website/websiteTemplate.ts:214-215 | The basic section ends with one `- f` bullet per preset feature, in order |
| WebsiteTemplate.GeneratedText | src/templates/website/websiteTemplate.ts:6-50 | `generate` (`Generate`) fails, with the string-method error, exactly when websiteType, aestheticStyle or copywritingTone is not a string; otherwise its text holds the five section headings, a `- c` bullet for every requested component, and the Tailwind styling line for React + Tailwind v4 or the CSS line for HTML + CSS |
| WebsiteTemplate.WebsitePromptShape | src/templates/website/websiteTemplate.ts:19-48 | Five sections in order; one bullet per component; requirements then design-system section under Design Guidelines; Tailwind styling line iff React + Tailwind v4 |
| DashboardTemplate.LayoutOrDefault | src/templates/dashboard/dashboardTemplate.ts:30 | `layout \|\| 'Bento Grid'`: a falsy layout prints Bento Grid, a truthy one is interpolated |
| DashboardTemplate.ReadFields | src/templates/dashboard/dashboardTemplate.ts:6-18 | Generation can proceed iff dashboardType, theme, density and colorScheme hold strings; lists fall back to empty |
| DashboardTemplate.TypeChoice | src/templates/dashboard/dashboardTemplate.ts:85-105 | Type bullets follow the first match of Analytics, Admin Panel, CRM, Project Management, E-commerce |
| DashboardTemplate.ThemeChoice | src/templates/dashboard/dashboardTemplate.ts:108-115 | Theme bullets follow the first match of Dark, Light |
| DashboardTemplate.DensityChoice | src/templates/dashboard/dashboardTemplate.ts:118-129 | Density bullets follow Compact, then Spacious, with the balanced block as fallback |
| DashboardTemplate.GenerateDashboardRequirements | src/templates/dashboard/dashboardTemplate.ts:77-131 | The pushes yield type, theme, then density bullets, joined by newlines |
| DashboardTemplate.PushTypeRequirements | src/templates/dashboard/dashboardTemplate.ts:85-105 | Pushes exactly the first matching type block |
| DashboardTemplate.PushThemeRequirements | src/templates/dashboard/dashboardTemplate.ts:108-115 | Pushes exactly the first matching theme block |
| DashboardTemplate.PushDensityRequirements | src/templates/dashboard/dashboardTemplate.ts:118-129 | Pushes exactly the first matching density block, or the balanced one |
| DashboardTemplate.TypeBlockSize | src/templates/dashboard/dashboardTemplate.ts:85-105 | A matching type contributes 3 bullets, none otherwise |
| DashboardTemplate.ThemeBlockSize | src/templates/dashboard/dashboardTemplate.ts:108-115 | Dark contributes 3 bullets, Light 2, anything else none |
| DashboardTemplate.DensityBlockSize | src/templates/dashboard/dashboardTemplate.ts:118-129 | Compact or Spacious contribute 3 bullets, the fallback 2 |
| DashboardTemplate.RequirementsNeverEmpty | src/templates/dashboard/dashboardTemplate.ts:82-131 | The density rule always fires, so the requirements are never empty |
| DashboardTemplate.DensitySameSplit | src/templates/dashboard/dashboardTemplate.ts:134-141 | `getDensitySpacing` (`GetDensitySpacing`) and the density requirements split on the same first match, so they always describe the same density |
| DashboardTemplate.AccentChoice | src/templates/dashboard/dashboardTemplate.ts:148-160 | The accent follows the first match of Blue, Purple, Green, Orange, Monochrome, with the category accent as fallback |
| DashboardTemplate.GetColorGuidance | src/templates/dashboard/dashboardTemplate.ts:143-163 | The reassigned accent and base give the specification's colour guidance |
| DashboardTemplate.ColorGuidanceBase | src/templates/dashboard/dashboardTemplate.ts:144-145 | Only whether the theme contains Dark affects the guidance |
| DashboardTemplate.ColorGuidanceShape | src/templates/dashboard/dashboardTemplate.ts:143-163 | `getColorGuidance` (`ColorGuidance`) is the dark or light base, then ". ", then the accent for that theme |
| DashboardTemplate.AccentThemeIndependence | src/templates/dashboard/dashboardTemplate.ts:148-160 | The accent is the same for dark and light iff no hue (Blue, Purple, Green, Orange) matches |
| DashboardTemplate.GeneratedText | src/templates/dashboard/dashboardTemplate.ts:5-74 | `generate` (`Generate`) ignores the tech stack and fails, with the string-method error, exactly when dashboardType, theme, density or colorScheme is not a string; otherwise its text holds the nine section headings, a bullet for every requested visualization and feature, and the standard-functionality line when no feature is requested |
| DashboardTemplate.DashboardPromptTitles | src/templates/dashboard/dashboardTemplate.ts:22-73 | The nine section headings, in order |
| DashboardTemplate.DashboardListSections | src/templates/dashboard/dashboardTemplate.ts:34-37 | One bullet per visualization; one bullet per feature, or the standard-functionality line when there are none |
| ComponentLibraryTemplate.ReadFields | src/templates/componentLibrary/componentLibraryTemplate.ts:6-9 | Generation can proceed iff libraryType and variants hold strings; lists fall back to empty |
| ComponentLibraryTemplate.VariantGuidanceIsFirstMatch | src/templates/componentLibrary/componentLibraryTemplate.ts:86-93 | `getVariantGuidance` (`GetVariantGuidance`) follows the first match of Basic, Standard, with the full list as fallback |
| ComponentLibraryTemplate.FeatureLines | src/templates/componentLibrary/componentLibraryTemplate.ts:31-61 | The dark palette line, item 7 (Dark Mode) and item 5 (Accessibility) appear iff the exact feature is in the list |
| ComponentLibraryTemplate.MembershipIsExact | src/templates/componentLibrary/componentLibraryTemplate.ts:31 | List membership is exact: a feature merely containing the name does not count, whereas the variants test is a substring test |
| ComponentLibraryTemplate.GeneratedText | src/templates/componentLibrary/componentLibraryTemplate.ts:5-83 | `generate` (`Generate`) ignores the tech stack and fails, with the string-method error, exactly when libraryType or variants is not a string; otherwise its text holds the eight section headings, a bullet for every requested component and feature, and the variant guidance chosen for the variants field |
| ComponentLibraryTemplate.LibraryPromptShape | src/templates/componentLibrary/componentLibraryTemplate.ts:12-82 | Eight sections in order; one bullet per component and per feature; palette line and variant guidance in place |
| DesktopAppTemplate.ReadFields | src/templates/desktopApp/desktopAppTemplate.ts:6-8 | Generation can proceed iff appType, platform, complexity and theme hold strings; features fall back to empty |
| DesktopAppTemplate.PlatformSpecificsIsFirstMatch | src/templates/desktopApp/desktopAppTemplate.ts:63-90 | `getPlatformSpecifics` (`GetPlatformSpecifics`) follows the first match of macOS, Windows, Linux, with Electron as fallback |
| DesktopAppTemplate.ElectronFallback | src/templates/desktopApp/desktopAppTemplate.ts:84-89 | No rule fires iff none of the three names occurs, and then the Electron block is used |
| DesktopAppTemplate.MacOsWins | src/templates/desktopApp/desktopAppTemplate.ts:64-70 | Every platform string naming macOS gets the macOS block, whatever other platforms it names |
| DesktopAppTemplate.GeneratedText | src/templates/desktopApp/desktopAppTemplate.ts:5-60 | `generate` (`Generate`) ignores the tech stack and fails, with the string-method error, exactly when appType, platform, complexity or theme is not a string; otherwise its text holds the seven section headings, a bullet for every requested feature, and the guidance block of the platform named |
| DesktopAppTemplate.DesktopPromptShape | src/templates/desktopApp/desktopAppTemplate.ts:10-57 | Seven sections in order; one bullet per feature; platform block in its section; lower-cased type, complexity and theme |
| MobileAppTemplate.ReadFields | src/templates/mobileApp/mobileAppTemplate.ts:7-10 | Generation can proceed iff appType, platform and designStyle hold strings; lists fall back to empty |
| MobileAppTemplate.HeadingAndBodyAgree | src/templates/mobileApp/mobileAppTemplate.ts:34-78 | The platform heading and `getPlatformGuidelines` (`GetPlatformGuidelines`) come from the same first match of iOS, Android, cross-platform |
| MobileAppTemplate.GeneratedText | src/templates/mobileApp/mobileAppTemplate.ts:6-54 | `generate` (`Generate`) ignores the tech stack and fails, with the string-method error, exactly when appType, platform or designStyle is not a string; otherwise its text holds the seven section headings (the fifth naming the platform), a bullet for every requested screen and interaction, and the guidelines of the platform named |
| MobileAppTemplate.MobilePromptShape | src/templates/mobileApp/mobileAppTemplate.ts:12-53 | Seven sections in order with the platform section fifth; one bullet per screen and interaction; lower-cased type and style |
| ConfigStore.PromptText | src/store/configStore.ts:108-114 | A successful generation stores its text; a failure stores the fixed error message |
| ConfigStore.GetDefaultConfigurations | src/store/configStore.ts:37-46 | With every type registered, the loop maps every UI type to the defaults the engine reports for it |
| ConfigStore.LoadedDefaults | src/store/configStore.ts:37-46 | Over the registry engine, those defaults are exactly each type's form defaults |
| ConfigStore.MergeConfig | src/store/configStore.ts:77-80 | Spread merge: the update's keys win, every other key keeps its value, no key is lost |
| ConfigStore.MergeIdempotent | src/store/configStore.ts:77-80 | Applying the same update twice equals applying it once |
| ConfigStore.MergeEmpty | src/store/configStore.ts:77-80 | An empty update changes nothing |
| ConfigStore.FindById | src/store/configStore.ts:136 | `find`: found iff some entry has the id, and then the first such entry |
| ConfigStore.WithoutId | src/store/configStore.ts:153 | `filter`: keeps exactly the entries with a different id; afterwards the id is not found |
| ConfigStore.DeleteUnknownKeeps | src/store/configStore.ts:151-155 | Deleting an id that is not saved changes nothing |
| ConfigStore.SavedIsFound | src/store/configStore.ts:118-148 | An entry saved under a fresh id is the one a later load finds |
| ConfigStore.StackOrDefault | src/store/configStore.ts:140 | A saved stack is restored; a missing one falls back to React + Tailwind v4 |
| ConfigStore.ConfigState.CurrentConfig | src/store/configStore.ts:106 | The current type always has a configuration |
| ConfigStore.ConfigState.constructor | src/store/configStore.ts:50-56 | Initial state: website, React + Tailwind v4, every type's defaults, empty prompt, no saved entries |
| ConfigStore.ConfigState.GeneratePrompt | src/store/configStore.ts:104-115 | Stores the engine's output for the current type, its configuration and the stack, or the error text; nothing else changes |
| ConfigStore.ConfigState.SetUIType | src/store/configStore.ts:59-63 | Sets the type, then regenerates |
| ConfigStore.ConfigState.SetTechStack | src/store/configStore.ts:66-70 | Sets the stack, then regenerates |
| ConfigStore.ConfigState.UpdateConfig | src/store/configStore.ts:73-87 | Merges the update into that type's configuration only; regenerates iff the type is the current one |
| ConfigStore.ConfigState.ResetConfig | src/store/configStore.ts:90-101 | Resets only that type's configuration to its form's defaults; regenerates iff the type is the current one |
| ConfigStore.ConfigState.SaveConfiguration | src/store/configStore.ts:118-132 | Appends exactly one snapshot of the current type, stack and configuration; earlier entries and the rest of the state are unchanged |
| ConfigStore.ConfigState.LoadConfiguration | src/store/configStore.ts:135-148 | Unknown id: nothing changes. Known id: restores type, stack (with fallback) and that type's configuration, then regenerates |
| ConfigStore.ConfigState.DeleteConfiguration | src/store/configStore.ts:151-155 | Removes every entry with the id, keeping the others |
| ConfigStore.ConfigState.ClearAllSavedConfigs | src/store/configStore.ts:158-160 | Empties the saved list and nothing else |
| ConfigStore.ConfigState.CurrentPromptIsTemplateOutput | src/store/configStore.ts:104-115 | The stored prompt is the current type's own template output, or the error text exactly when that template fails |
| UIStore.Toggled | src/store/uiStore.ts:52 | The toggled theme always differs from the current one |
| UIStore.ToggleInvolution | src/store/uiStore.ts:51-54 | Toggling twice restores the theme |
| UIStore.WithoutToast | src/store/uiStore.ts:83-87 | Keeps exactly the toasts with a different id; an unknown id leaves the list as it was |
| UIStore.WithoutToastAppend | src/store/uiStore.ts:85 | Removing from a concatenation removes from each part, so the order of the rest is kept |
| UIStore.AddThenRemove | src/store/uiStore.ts:65-87 | A toast added under a fresh id and then removed by it leaves the list as before |
| UIStore.UIState.constructor | src/store/uiStore.ts:34-37 | Initial state: dark theme, both modals closed, no toasts |
| UIStore.UIState.SetTheme | src/store/uiStore.ts:40-41 | Sets the theme and nothing else |
| UIStore.UIState.ToggleTheme | src/store/uiStore.ts:51-54 | Switches dark to light and light to dark, nothing else |
| UIStore.UIState.OpenSaveModal | src/store/uiStore.ts:57 | Sets only the save-modal flag |
| UIStore.UIState.CloseSaveModal | src/store/uiStore.ts:58 | Clears only the save-modal flag |
| UIStore.UIState.OpenLoadModal | src/store/uiStore.ts:61 | Sets only the load-modal flag |
| UIStore.UIState.CloseLoadModal | src/store/uiStore.ts:62 | Clears only the load-modal flag |
| UIStore.UIState.AddToast | src/store/uiStore.ts:65-74 | Appends one toast with the message and kind (Info by default) at the end |
| UIStore.UIState.RemoveToast | src/store/uiStore.ts:83-87 | Removes every toast with the id |
| UIStore.UIState.ClearToasts | src/store/uiStore.ts:90-92 | Empties the toast list and nothing else |
| MultiSelect.Without | src/components/configurator/MultiSelect.tsx:17 | The option no longer occurs; all other values keep their membership |
| MultiSelect.ToggleOption | src/components/configurator/MultiSelect.tsx:15-21 | Membership of the option flips and nothing else's does; an absent option is appended at the end, a present one is removed everywhere |
| MultiSelect.ToggleKeepsOthers | src/components/configurator/MultiSelect.tsx:15-21 | Apart from the option, the list keeps its elements in the same order |
| MultiSelect.ToggleTwice | src/components/configurator/MultiSelect.tsx:15-21 | Toggling an absent option twice returns the original list |

## Left out

- Field coercion: a field that a template calls `.includes` on could hold an array in
  JavaScript, and `.includes` would then test membership. In the model, any non-string in
  a field used with a string method is the `NotAString` error, as `.toLowerCase` would
  throw. Numbers, `null` and objects as configuration values are not modelled; values
  are strings, string lists and booleans.
- Prototype keys: JavaScript object lookups also see inherited keys such as
  `constructor`, which affects `mapAestheticToDesignSystem`, `getDesignSystem`, the
  registry lookup, validateConfig's `option.id in config` test and getDefaultConfig's
  `defaultConfig[option.id] =` write (an option id such as `__proto__`). The model
  treats records as plain maps.
- Case mapping and trimming: `toLowerCase`/`toUpperCase` are modelled for ASCII only.
  The regular-expression engine used by `toSentenceCase` is replaced by the equivalent
  character-by-character functions.
- Number formatting: the design systems' numeric scales are kept as the strings
  JavaScript prints for them.
- Prose: the fixed prompt paragraphs are opaque constants. The proofs are about which
  lines appear and in what order, not about the wording.
- Per-type forms: `websiteConfig`, `dashboardConfig` and the others are declared in
  files that are not part of this model. The registry takes them as a parameter.
- Persistence: the `persist` middleware, the top-level theme initialisation of the UI
  store and the `document` class changes in `setTheme` are not modelled.
- Nondeterminism and timing:
  - `nanoid` and `Date.now` become method parameters.
  - The four-second toast auto-removal timer is left out.
  - `console.error` is left out.
- MultiSelect.ToggleOption: the new list is the function's result; that `onChange` is
  called exactly once per click is not modelled.
- ConfigStore.MergeConfig: a `Partial<TemplateConfig>` key whose value is `undefined`
  would be copied as `undefined`; updates in the model hold defined values only.
- ConfigStore.ConfigState.ResetConfig: requires the store to be bound to the registry
  engine. The source's `getDefaultConfig` would throw for an unregistered type, which
  cannot happen with that engine.
- Store preconditions: throws from the engine other than `generate`'s cannot occur,
  because all five types are registered. The store is therefore modelled only over the
  registry engine.
- ConfigStore.StackOrDefault: a stored stack string outside the two known values cannot
  be represented, so only a missing stack falls back.
