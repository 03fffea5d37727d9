/** src/config/designSystems.ts: two immutable design-system presets, the registry that
    keys them by id, and the label-to-id mapping the website template consults.
    Numeric scales are kept as the strings JavaScript prints for them. */
module DesignSystems {
  import opened Wrappers

  datatype Colors = Colors(
    background: string,
    foreground: string,
    card: string,
    border: string,
    ring: string,
    accent: Option<string>,
    muted: Option<string>)

  datatype Typography = Typography(
    fontFamily: string,
    fontSizes: seq<string>,
    fontWeights: seq<string>,
    lineHeights: seq<string>)

  datatype Spacing = Spacing(unit: string, scale: seq<string>)

  datatype BorderRadius = BorderRadius(sm: string, md: string, lg: string, xl: string)

  datatype Effects = Effects(shadows: seq<string>, blur: seq<string>, opacity: seq<string>)

  datatype Durations = Durations(fast: string, normal: string, slow: string)

  datatype Transitions = Transitions(duration: Durations, easing: seq<string>)

  datatype Patterns = Patterns(navigation: string, buttons: string, cards: string, forms: string)

  datatype DesignSystemConfig = DesignSystemConfig(
    id: string,
    name: string,
    description: string,
    colors: Colors,
    typography: Typography,
    spacing: Spacing,
    borderRadius: BorderRadius,
    effects: Effects,
    transitions: Transitions,
    patterns: Patterns,
    features: seq<string>)

  const GlassId := "portfolio-minimalist-glass"
  const ModernCleanId := "modern-clean"

  const PortfolioMinimalist := DesignSystemConfig(
    GlassId,
    "Portfolio Minimalist (Glass)",
    "Minimalist portfolio design with glass morphism, sophisticated transparency, and smooth micro-interactions",
    Colors("hsl(0 0% 100%)", "hsl(0 0% 3.9%)", "hsl(0 0% 100%)", "hsl(0 0% 89.8%)", "hsl(0 0% 3.9%)",
           Some("hsl(0 0% 96.1%)"), Some("hsl(0 0% 96.1%)")),
    Typography("system-ui, -apple-system, sans-serif",
               ["0.75rem", "0.875rem", "1rem", "1.125rem", "1.25rem", "1.5rem", "2rem"],
               ["400", "500", "600", "700"],
               ["1", "1.25", "1.5", "1.75", "2"]),
    Spacing("rem", ["0", "0.125", "0.25", "0.375", "0.5", "0.75", "1", "1.5", "2", "3", "4", "6", "8"]),
    BorderRadius("0.375rem", "0.5rem", "0.75rem", "1rem"),
    Effects(["0 1px 2px 0 rgb(0 0 0 / 0.05)", "0 4px 6px -1px rgb(0 0 0 / 0.1)", "0 10px 15px -3px rgb(0 0 0 / 0.1)"],
            ["4px", "8px", "12px", "16px", "24px"],
            ["0", "0.5", "0.7", "0.75", "0.8", "0.9", "1"]),
    Transitions(Durations("100ms", "200ms", "350ms"),
                ["cubic-bezier(0.25, 0.46, 0.45, 0.94)", "cubic-bezier(0.4, 0, 0.2, 1)"]),
    Patterns("Fixed translucent navbar with backdrop blur (16px), 75% opacity, rounded corners, centered layout",
             "Ghost buttons with smooth transitions (100ms), hover state changes opacity 70% to 100%, rounded-md",
             "Rounded corners (lg), subtle borders with 80% opacity, optional glass morphism with backdrop blur",
             "Clean inputs with focus rings, subtle borders, smooth transitions"),
    ["Glass morphism effect with backdrop blur",
     "Translucent backgrounds (75% opacity)",
     "OKLAB color-mix for smooth transparency",
     "Micro-interactions with 100-350ms transitions",
     "Dark mode support via CSS custom properties",
     "Accessibility-first with proper focus states",
     "Mobile-first responsive design",
     "Professional typography hierarchy"])

  const ModernClean := DesignSystemConfig(
    ModernCleanId,
    "Modern Clean",
    "Contemporary design with clean lines, solid colors, and clear hierarchy",
    Colors("hsl(0 0% 100%)", "hsl(222.2 84% 4.9%)", "hsl(0 0% 100%)", "hsl(214.3 31.8% 91.4%)", "hsl(222.2 84% 4.9%)",
           Some("hsl(210 40% 96.1%)"), Some("hsl(210 40% 96.1%)")),
    Typography("Inter, system-ui, sans-serif",
               ["0.875rem", "1rem", "1.125rem", "1.25rem", "1.5rem", "2rem", "3rem"],
               ["400", "500", "600", "700", "800"],
               ["1.25", "1.5", "1.75", "2"]),
    Spacing("rem", ["0", "0.25", "0.5", "0.75", "1", "1.25", "1.5", "2", "2.5", "3", "4", "5", "6", "8"]),
    BorderRadius("0.25rem", "0.375rem", "0.5rem", "0.75rem"),
    Effects(["0 1px 3px 0 rgb(0 0 0 / 0.1)", "0 4px 6px -1px rgb(0 0 0 / 0.1)", "0 20px 25px -5px rgb(0 0 0 / 0.1)"],
            ["2px", "4px", "8px", "16px"],
            ["0", "0.5", "0.75", "1"]),
    Transitions(Durations("150ms", "300ms", "500ms"), ["ease-in-out", "cubic-bezier(0.4, 0, 0.2, 1)"]),
    Patterns("Solid background navbar with subtle shadow, clean layout",
             "Solid buttons with hover effects, clear CTAs",
             "Clean cards with subtle shadows and borders",
             "Standard form inputs with clear labels"),
    ["Clean and contemporary aesthetic",
     "Solid colors with clear contrast",
     "Subtle shadows for depth",
     "Clear visual hierarchy",
     "Responsive grid layouts",
     "Standard transitions"])

  /** The `designSystems` record, in its declaration order. */
  const Registry: seq<(string, DesignSystemConfig)> := [(GlassId, PortfolioMinimalist), (ModernCleanId, ModernClean)]

  /** `getDesignSystem(id)`: the preset stored under `id`, if any. */
  function GetDesignSystem(id: string): (r: Option<DesignSystemConfig>)
    ensures r.Some? <==> exists i :: 0 <= i < |Registry| && Registry[i].0 == id
    ensures r.Some? ==> r.value.id == id
  {
    LookupIn(Registry, id)
  }

  function LookupIn(entries: seq<(string, DesignSystemConfig)>, id: string): (r: Option<DesignSystemConfig>)
    ensures r.Some? <==> exists i :: 0 <= i < |entries| && entries[i].0 == id
    ensures r.Some? ==> exists i :: 0 <= i < |entries| && entries[i].0 == id && entries[i].1 == r.value
  {
    if |entries| == 0 then None
    else if entries[0].0 == id then Some(entries[0].1)
    else LookupIn(entries[1..], id)
  }

  /** `getDesignSystemNames()`: the names, in registry order. */
  function GetDesignSystemNames(): (r: seq<string>)
    ensures |r| == |Registry|
    ensures forall i :: 0 <= i < |Registry| ==> r[i] == Registry[i].1.name
  {
    NamesOf(Registry)
  }

  function NamesOf(entries: seq<(string, DesignSystemConfig)>): (r: seq<string>)
    ensures |r| == |entries|
    ensures forall i :: 0 <= i < |entries| ==> r[i] == entries[i].1.name
  {
    if |entries| == 0 then [] else [entries[0].1.name] + NamesOf(entries[1..])
  }

  /** `mapAestheticToDesignSystem(label)`: exact, case-sensitive match of a style label. */
  function MapAestheticToDesignSystem(aesthetic: string): (r: Option<string>)
    ensures r.Some? <==> aesthetic == "Portfolio Minimalist (Glass)" || aesthetic == "Modern Clean"
  {
    if aesthetic == "Portfolio Minimalist (Glass)" then Some(GlassId)
    else if aesthetic == "Modern Clean" then Some(ModernCleanId)
    else None
  }

  /** Exactly the two ids are registered. */
  lemma RegisteredIds(id: string)
    ensures GetDesignSystem(id).Some? <==> id == GlassId || id == ModernCleanId
  {
    assert |Registry| == 2 && Registry[0].0 == GlassId && Registry[1].0 == ModernCleanId;
  }

  /** Each registered id retrieves its own preset. */
  lemma LookupRegistered()
    ensures GetDesignSystem(GlassId) == Some(PortfolioMinimalist)
    ensures GetDesignSystem(ModernCleanId) == Some(ModernClean)
  {
    assert Registry[1..] == [(ModernCleanId, ModernClean)];
    assert LookupIn(Registry[1..], ModernCleanId) == Some(ModernClean);
  }

  /** Each registry key is the id of its own entry. */
  lemma KeysAreIds()
    ensures forall i :: 0 <= i < |Registry| ==> Registry[i].0 == Registry[i].1.id
  {
  }

  /** A label that maps names a registered preset, and that preset is named by the label. */
  lemma MappedLabelIsName(aesthetic: string)
    requires MapAestheticToDesignSystem(aesthetic).Some?
    ensures GetDesignSystem(MapAestheticToDesignSystem(aesthetic).value).Some?
    ensures GetDesignSystem(MapAestheticToDesignSystem(aesthetic).value).value.name == aesthetic
  {
    RegisteredIds(MapAestheticToDesignSystem(aesthetic).value);
  }

  /** The names come glass first, then Modern Clean. */
  lemma NamesInOrder()
    ensures GetDesignSystemNames() == ["Portfolio Minimalist (Glass)", "Modern Clean"]
  {
  }

  lemma GlassBackground()
    ensures GetDesignSystem(MapAestheticToDesignSystem("Portfolio Minimalist (Glass)").value).value.colors.background
         == "hsl(0 0% 100%)"
  {
  }
}
