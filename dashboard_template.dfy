/** src/templates/dashboard/dashboardTemplate.ts: the dashboard prompt, its rule-chosen
    design requirements, the spacing line and the colour guidance. */
module DashboardTemplate {
  import opened Wrappers
  import opened Strings
  import opened Selection
  import opened Types
  import opened Prompts

  /** The configuration fields the template destructures. `dashboardType`, `theme`,
      `density` and `colorScheme` have string methods called on them. */
  datatype Fields = Fields(
    dashboardType: string,
    theme: string,
    density: string,
    colorScheme: string,
    sidebarStyle: string,
    layout: string,
    visualizations: seq<string>,
    features: seq<string>)

  /** `layout || 'Bento Grid'`, printed. */
  function LayoutOrDefault(config: TemplateConfig): (r: string)
    ensures !Truthy(config, "layout") ==> r == "Bento Grid"
    ensures Truthy(config, "layout") ==> r == Interpolate(config, "layout")
  {
    if Truthy(config, "layout") then Interpolate(config, "layout") else "Bento Grid"
  }

  function ReadFields(config: TemplateConfig): (r: Result<Fields, PromptError>)
    ensures r.Ok? <==> TextField(config, "dashboardType").Some? && TextField(config, "theme").Some?
                       && TextField(config, "density").Some? && TextField(config, "colorScheme").Some?
    ensures r.Err? ==> r.error == NotAString
    ensures r.Ok? ==> r.value.dashboardType == TextField(config, "dashboardType").value
                      && r.value.theme == TextField(config, "theme").value
                      && r.value.density == TextField(config, "density").value
                      && r.value.colorScheme == TextField(config, "colorScheme").value
                      && r.value.layout == LayoutOrDefault(config)
                      && r.value.visualizations == ListField(config, "dataVisualization")
                      && r.value.features == ListField(config, "features")
  {
    match (TextField(config, "dashboardType"), TextField(config, "theme"),
           TextField(config, "density"), TextField(config, "colorScheme"))
    case (Some(dashboardType), Some(theme), Some(density), Some(colorScheme)) =>
      Ok(Fields(dashboardType, theme, density, colorScheme, Interpolate(config, "sidebarStyle"),
                LayoutOrDefault(config), ListField(config, "dataVisualization"), ListField(config, "features")))
    case _ => Err(NotAString)
  }

  // Requirement bullets, by the rule that adds them.

  const AnalyticsRequirements := [
    "- Prominent KPI cards showing key metrics with trend indicators (up/down arrows)",
    "- Time period selector for filtering data (Last 7 days, 30 days, etc.)",
    "- Comparison views (vs. previous period)"]
  const AdminPanelRequirements := [
    "- Quick action buttons for common admin tasks",
    "- Recent activity feed or audit log",
    "- User management table with inline actions"]
  const CrmRequirements := [
    "- Contact/lead pipeline visualization",
    "- Activity timeline for customer interactions",
    "- Task management with status indicators"]
  const ProjectManagementRequirements := [
    "- Project status overview with progress indicators",
    "- Task board or kanban view",
    "- Team member assignment and workload visualization"]
  const ECommerceRequirements := [
    "- Sales metrics with revenue, orders, and conversion rates",
    "- Product performance tables",
    "- Order management with status workflows"]

  const DarkThemeRequirements := [
    "- Use dark background (#0f172a or similar) with elevated cards",
    "- Ensure sufficient contrast for text (WCAG AAA for body text)",
    "- Use subtle borders and dividers to separate sections"]
  const LightThemeRequirements := [
    "- Use light background (#f8fafc or similar) with white cards",
    "- Use shadows to create depth and hierarchy"]

  const CompactRequirements := [
    "- Maximize data density with minimal padding (8-12px)",
    "- Use smaller typography (12-14px for body text)",
    "- Compact table rows and tight line height"]
  const SpaciousRequirements := [
    "- Generous whitespace and padding (20-32px)",
    "- Larger typography (14-16px for body text)",
    "- Comfortable spacing in tables and lists"]
  const BalancedRequirements := [
    "- Balanced spacing with adequate breathing room (16-24px)",
    "- Standard typography (14px for body text)"]

  /** Dashboard-type rules, highest priority first. */
  const TypeRules: seq<Rule<seq<string>>> := [
    Rule(["Analytics"], AnalyticsRequirements),
    Rule(["Admin Panel"], AdminPanelRequirements),
    Rule(["CRM"], CrmRequirements),
    Rule(["Project Management"], ProjectManagementRequirements),
    Rule(["E-commerce"], ECommerceRequirements)]

  /** Theme rules: `Dark` is tested before `Light`. */
  const ThemeRules: seq<Rule<seq<string>>> := [
    Rule(["Dark"], DarkThemeRequirements),
    Rule(["Light"], LightThemeRequirements)]

  /** The Compact / Spacious / default split shared by the density bullets and the spacing line. */
  const CompactPatterns := ["Compact"]
  const SpaciousPatterns := ["Spacious"]

  const DensityRules: seq<Rule<seq<string>>> := [
    Rule(CompactPatterns, CompactRequirements),
    Rule(SpaciousPatterns, SpaciousRequirements)]

  const TightSpacing := "Tight spacing (8-12px padding, 4-8px gaps)"
  const GenerousSpacing := "Generous spacing (20-32px padding, 16-24px gaps)"
  const ComfortableSpacing := "Comfortable spacing (16-24px padding, 12-16px gaps)"

  const SpacingRules: seq<Rule<string>> := [
    Rule(CompactPatterns, TightSpacing),
    Rule(SpaciousPatterns, GenerousSpacing)]

  lemma TypeChoice(dashboardType: string)
    ensures Choose(TypeRules, dashboardType, [])
         == if Contains(dashboardType, "Analytics") then AnalyticsRequirements
            else if Contains(dashboardType, "Admin Panel") then AdminPanelRequirements
            else if Contains(dashboardType, "CRM") then CrmRequirements
            else if Contains(dashboardType, "Project Management") then ProjectManagementRequirements
            else if Contains(dashboardType, "E-commerce") then ECommerceRequirements
            else []
  {
    assert Fires(TypeRules[0], dashboardType) <==> Contains(dashboardType, "Analytics") by { assert TypeRules[0].patterns == ["Analytics"]; }
    assert Fires(TypeRules[1], dashboardType) <==> Contains(dashboardType, "Admin Panel") by { assert TypeRules[1].patterns == ["Admin Panel"]; }
    assert Fires(TypeRules[2], dashboardType) <==> Contains(dashboardType, "CRM") by { assert TypeRules[2].patterns == ["CRM"]; }
    assert Fires(TypeRules[3], dashboardType) <==> Contains(dashboardType, "Project Management") by {
      assert TypeRules[3].patterns == ["Project Management"];
    }
    assert Fires(TypeRules[4], dashboardType) <==> Contains(dashboardType, "E-commerce") by { assert TypeRules[4].patterns == ["E-commerce"]; }
    assert ChooseFrom(TypeRules, 5, dashboardType, []) == [];
    assert ChooseFrom(TypeRules, 4, dashboardType, []) == if Contains(dashboardType, "E-commerce") then ECommerceRequirements else [];
    assert ChooseFrom(TypeRules, 3, dashboardType, [])
        == if Contains(dashboardType, "Project Management") then ProjectManagementRequirements
           else ChooseFrom(TypeRules, 4, dashboardType, []);
    assert ChooseFrom(TypeRules, 2, dashboardType, [])
        == if Contains(dashboardType, "CRM") then CrmRequirements else ChooseFrom(TypeRules, 3, dashboardType, []);
    assert ChooseFrom(TypeRules, 1, dashboardType, [])
        == if Contains(dashboardType, "Admin Panel") then AdminPanelRequirements else ChooseFrom(TypeRules, 2, dashboardType, []);
  }

  lemma ThemeChoice(theme: string)
    ensures Choose(ThemeRules, theme, [])
         == if Contains(theme, "Dark") then DarkThemeRequirements
            else if Contains(theme, "Light") then LightThemeRequirements
            else []
  {
    assert Fires(ThemeRules[0], theme) <==> Contains(theme, "Dark") by { assert ThemeRules[0].patterns == ["Dark"]; }
    assert Fires(ThemeRules[1], theme) <==> Contains(theme, "Light") by { assert ThemeRules[1].patterns == ["Light"]; }
    assert ChooseFrom(ThemeRules, 2, theme, []) == [];
    assert ChooseFrom(ThemeRules, 1, theme, []) == if Contains(theme, "Light") then LightThemeRequirements else [];
  }

  lemma DensityChoice(density: string)
    ensures Choose(DensityRules, density, BalancedRequirements)
         == if Contains(density, "Compact") then CompactRequirements
            else if Contains(density, "Spacious") then SpaciousRequirements
            else BalancedRequirements
  {
    assert Fires(DensityRules[0], density) <==> Contains(density, "Compact") by { assert DensityRules[0].patterns == ["Compact"]; }
    assert Fires(DensityRules[1], density) <==> Contains(density, "Spacious") by { assert DensityRules[1].patterns == ["Spacious"]; }
    assert ChooseFrom(DensityRules, 2, density, BalancedRequirements) == BalancedRequirements;
    assert ChooseFrom(DensityRules, 1, density, BalancedRequirements)
        == if Contains(density, "Spacious") then SpaciousRequirements else BalancedRequirements;
  }

  /** The type block, then the theme block, then the density block. */
  function RequirementLines(dashboardType: string, theme: string, density: string): seq<string>
  {
    Choose(TypeRules, dashboardType, []) + Choose(ThemeRules, theme, []) + Choose(DensityRules, density, BalancedRequirements)
  }

  /** `generateDashboardRequirements`: pushes bullets onto a local list in three stages
      (type, theme, density), then joins them with newlines. */
  method GenerateDashboardRequirements(dashboardType: string, theme: string, density: string) returns (r: string)
    ensures r == Join(RequirementLines(dashboardType, theme, density), "\n")
  {
    var requirements := PushTypeRequirements([], dashboardType);
    assert requirements == Choose(TypeRules, dashboardType, []);
    requirements := PushThemeRequirements(requirements, theme);
    requirements := PushDensityRequirements(requirements, density);
    r := Join(requirements, "\n");
  }

  method PushTypeRequirements(requirements: seq<string>, dashboardType: string) returns (r: seq<string>)
    ensures r == requirements + Choose(TypeRules, dashboardType, [])
  {
    r := requirements;
    if Contains(dashboardType, "Analytics") {
      r := r + AnalyticsRequirements;
    } else if Contains(dashboardType, "Admin Panel") {
      r := r + AdminPanelRequirements;
    } else if Contains(dashboardType, "CRM") {
      r := r + CrmRequirements;
    } else if Contains(dashboardType, "Project Management") {
      r := r + ProjectManagementRequirements;
    } else if Contains(dashboardType, "E-commerce") {
      r := r + ECommerceRequirements;
    }
    TypeChoice(dashboardType);
  }

  method PushThemeRequirements(requirements: seq<string>, theme: string) returns (r: seq<string>)
    ensures r == requirements + Choose(ThemeRules, theme, [])
  {
    r := requirements;
    if Contains(theme, "Dark") {
      r := r + DarkThemeRequirements;
    } else if Contains(theme, "Light") {
      r := r + LightThemeRequirements;
    }
    ThemeChoice(theme);
  }

  method PushDensityRequirements(requirements: seq<string>, density: string) returns (r: seq<string>)
    ensures r == requirements + Choose(DensityRules, density, BalancedRequirements)
  {
    r := requirements;
    if Contains(density, "Compact") {
      r := r + CompactRequirements;
    } else if Contains(density, "Spacious") {
      r := r + SpaciousRequirements;
    } else {
      r := r + BalancedRequirements;
    }
    DensityChoice(density);
  }

  predicate TypeRuleFires(dashboardType: string)
  {
    Contains(dashboardType, "Analytics") || Contains(dashboardType, "Admin Panel") || Contains(dashboardType, "CRM")
    || Contains(dashboardType, "Project Management") || Contains(dashboardType, "E-commerce")
  }

  /** A matching dashboard type gives exactly three bullets, no match none. */
  lemma TypeBlockSize(dashboardType: string)
    ensures |Choose(TypeRules, dashboardType, [])| == if TypeRuleFires(dashboardType) then 3 else 0
  {
    TypeChoice(dashboardType);
  }

  /** `Dark` gives three bullets, otherwise `Light` two, otherwise none. */
  lemma ThemeBlockSize(theme: string)
    ensures |Choose(ThemeRules, theme, [])|
         == if Contains(theme, "Dark") then 3 else if Contains(theme, "Light") then 2 else 0
  {
    ThemeChoice(theme);
  }

  /** `Compact` or `Spacious` gives three bullets, anything else the two default ones. */
  lemma DensityBlockSize(density: string)
    ensures |Choose(DensityRules, density, BalancedRequirements)|
         == if Contains(density, "Compact") || Contains(density, "Spacious") then 3 else 2
  {
    DensityChoice(density);
  }

  /** The density bullets are always there, so the requirements are never empty. */
  lemma RequirementsNeverEmpty(dashboardType: string, theme: string, density: string)
    ensures |RequirementLines(dashboardType, theme, density)| >= 2
    ensures Join(RequirementLines(dashboardType, theme, density), "\n") != ""
  {
    DensityBlockSize(density);
    var lines := RequirementLines(dashboardType, theme, density);
    assert |lines| >= 2;
  }

  /** `getDensitySpacing`. */
  function GetDensitySpacing(density: string): string
  {
    if Contains(density, "Compact") then TightSpacing
    else if Contains(density, "Spacious") then GenerousSpacing
    else ComfortableSpacing
  }

  /** The spacing line follows the same split as the density bullets: both tables carry the
      same patterns, so the same rule fires in each, and each result is that rule's entry. */
  lemma DensitySameSplit(density: string)
    ensures FirstFiring(DensityRules, density) == FirstFiring(SpacingRules, density)
    ensures var k := FirstFiring(DensityRules, density);
            && GetDensitySpacing(density) == (if k < |SpacingRules| then SpacingRules[k].outcome else ComfortableSpacing)
            && Choose(DensityRules, density, BalancedRequirements)
               == (if k < |DensityRules| then DensityRules[k].outcome else BalancedRequirements)
  {
    DensityChoice(density);
    ChooseIsFirstFiring(DensityRules, density, BalancedRequirements);
    assert Fires(SpacingRules[0], density) <==> Contains(density, "Compact") by { assert SpacingRules[0].patterns == ["Compact"]; }
    assert Fires(SpacingRules[1], density) <==> Contains(density, "Spacious") by { assert SpacingRules[1].patterns == ["Spacious"]; }
    assert Fires(DensityRules[0], density) <==> Contains(density, "Compact") by { assert DensityRules[0].patterns == ["Compact"]; }
    assert Fires(DensityRules[1], density) <==> Contains(density, "Spacious") by { assert DensityRules[1].patterns == ["Spacious"]; }
    assert FirstFiringFrom(SpacingRules, 2, density) == 2 && FirstFiringFrom(DensityRules, 2, density) == 2;
  }

  // Colour guidance.

  const DarkBase := "Dark background with light text"
  const LightBase := "Light background with dark text"
  const MonochromeAccent := "Grayscale palette with subtle accent colors only for critical actions"
  const CategoryAccent := "Category-specific colors for different data types"

  /** Accent rules, highest priority first; each outcome is the (dark, light) pair of accents. */
  const AccentRules: seq<Rule<(string, string)>> := [
    Rule(["Blue"], ("#3b82f6 for primary actions", "#2563eb for primary actions")),
    Rule(["Purple"], ("#a78bfa for primary actions", "#7c3aed for primary actions")),
    Rule(["Green"], ("#34d399 for success/positive metrics", "#10b981 for success/positive metrics")),
    Rule(["Orange"], ("#fb923c for highlights and warnings", "#f97316 for highlights and warnings")),
    Rule(["Monochrome"], (MonochromeAccent, MonochromeAccent))]

  function Accent(isDark: bool, colorScheme: string): string
  {
    var pair := Choose(AccentRules, colorScheme, (CategoryAccent, CategoryAccent));
    if isDark then pair.0 else pair.1
  }

  /** The guidance the colour line prints: the base for the theme, then the accent. */
  function ColorGuidance(theme: string, colorScheme: string): string
  {
    var isDark := Contains(theme, "Dark");
    (if isDark then DarkBase else LightBase) + ". " + Accent(isDark, colorScheme)
  }

  lemma AccentChoice(colorScheme: string)
    ensures Choose(AccentRules, colorScheme, (CategoryAccent, CategoryAccent))
         == if Contains(colorScheme, "Blue") then AccentRules[0].outcome
            else if Contains(colorScheme, "Purple") then AccentRules[1].outcome
            else if Contains(colorScheme, "Green") then AccentRules[2].outcome
            else if Contains(colorScheme, "Orange") then AccentRules[3].outcome
            else if Contains(colorScheme, "Monochrome") then (MonochromeAccent, MonochromeAccent)
            else (CategoryAccent, CategoryAccent)
  {
    var rules, fallback := AccentRules, (CategoryAccent, CategoryAccent);
    assert Fires(rules[0], colorScheme) <==> Contains(colorScheme, "Blue") by { assert rules[0].patterns == ["Blue"]; }
    assert Fires(rules[1], colorScheme) <==> Contains(colorScheme, "Purple") by { assert rules[1].patterns == ["Purple"]; }
    assert Fires(rules[2], colorScheme) <==> Contains(colorScheme, "Green") by { assert rules[2].patterns == ["Green"]; }
    assert Fires(rules[3], colorScheme) <==> Contains(colorScheme, "Orange") by { assert rules[3].patterns == ["Orange"]; }
    assert Fires(rules[4], colorScheme) <==> Contains(colorScheme, "Monochrome") by { assert rules[4].patterns == ["Monochrome"]; }
    assert ChooseFrom(rules, 5, colorScheme, fallback) == fallback;
    assert ChooseFrom(rules, 4, colorScheme, fallback) == if Contains(colorScheme, "Monochrome") then rules[4].outcome else fallback;
    assert ChooseFrom(rules, 3, colorScheme, fallback)
        == if Contains(colorScheme, "Orange") then rules[3].outcome else ChooseFrom(rules, 4, colorScheme, fallback);
    assert ChooseFrom(rules, 2, colorScheme, fallback)
        == if Contains(colorScheme, "Green") then rules[2].outcome else ChooseFrom(rules, 3, colorScheme, fallback);
    assert ChooseFrom(rules, 1, colorScheme, fallback)
        == if Contains(colorScheme, "Purple") then rules[1].outcome else ChooseFrom(rules, 2, colorScheme, fallback);
  }

  /** `getColorGuidance`: reassigns a local `accent` across an `else if` chain. */
  method GetColorGuidance(theme: string, colorScheme: string) returns (r: string)
    ensures r == ColorGuidance(theme, colorScheme)
  {
    var isDark := Contains(theme, "Dark");
    var base := if isDark then DarkBase else LightBase;

    var accent := "";
    if Contains(colorScheme, "Blue") {
      accent := if isDark then "#3b82f6 for primary actions" else "#2563eb for primary actions";
    } else if Contains(colorScheme, "Purple") {
      accent := if isDark then "#a78bfa for primary actions" else "#7c3aed for primary actions";
    } else if Contains(colorScheme, "Green") {
      accent := if isDark then "#34d399 for success/positive metrics" else "#10b981 for success/positive metrics";
    } else if Contains(colorScheme, "Orange") {
      accent := if isDark then "#fb923c for highlights and warnings" else "#f97316 for highlights and warnings";
    } else if Contains(colorScheme, "Monochrome") {
      accent := MonochromeAccent;
    } else {
      accent := CategoryAccent;
    }
    AccentChoice(colorScheme);

    r := base + ". " + accent;
  }

  /** The base depends only on whether the theme contains `Dark`. */
  lemma ColorGuidanceBase(theme1: string, theme2: string, colorScheme: string)
    requires Contains(theme1, "Dark") == Contains(theme2, "Dark")
    ensures ColorGuidance(theme1, colorScheme) == ColorGuidance(theme2, colorScheme)
  {
  }

  /** The guidance is the theme's base, `. `, then the accent for the scheme. */
  lemma ColorGuidanceShape(theme: string, colorScheme: string)
    ensures Contains(theme, "Dark") ==> ColorGuidance(theme, colorScheme) == DarkBase + ". " + Accent(true, colorScheme)
    ensures !Contains(theme, "Dark") ==> ColorGuidance(theme, colorScheme) == LightBase + ". " + Accent(false, colorScheme)
  {
  }

  /** The Monochrome and fallback accents do not depend on the theme; the four colour accents do. */
  lemma AccentThemeIndependence(colorScheme: string)
    ensures (Accent(true, colorScheme) == Accent(false, colorScheme))
        <==> !(Contains(colorScheme, "Blue") || Contains(colorScheme, "Purple")
               || Contains(colorScheme, "Green") || Contains(colorScheme, "Orange"))
  {
    AccentChoice(colorScheme);
    assert forall k :: 0 <= k < 4 ==> AccentRules[k].outcome.0 != AccentRules[k].outcome.1 by {
      assert AccentRules[0].outcome.0[1] != AccentRules[0].outcome.1[1];
      assert AccentRules[1].outcome.0[1] != AccentRules[1].outcome.1[1];
      assert AccentRules[2].outcome.0[1] != AccentRules[2].outcome.1[1];
      assert AccentRules[3].outcome.0[2] != AccentRules[3].outcome.1[2];
    }
  }

  // The prompt.

  const IntroOpening := "Act as an expert UI/UX designer specializing in data-driven interfaces. Design a comprehensive "
  const IntroClosing := " with excellent data visualization and user experience."
  const NoFeatures := "- Standard dashboard functionality"

  const UserExperienceLines :=
    "- Create intuitive information hierarchy with clear visual grouping"
    + "\n- Ensure data is scannable and insights are immediately apparent"
    + "\n- Use progressive disclosure for complex data (drill-down capabilities)"
    + "\n- Implement responsive design that works on desktop and tablet"
    + "\n- Provide clear feedback for all user actions"
    + "\n- Include loading states for data-heavy components"

  const AccessibilityLines :=
    "- Ensure WCAG 2.1 AA compliance for all visualizations"
    + "\n- Use colorblind-friendly palettes for charts"
    + "\n- Provide text alternatives for data visualizations"
    + "\n- Optimize for performance with lazy loading for heavy data tables"
    + "\n- Include keyboard navigation for all interactive elements"

  const TypographyLine := "- Typography: Use a clear, legible sans-serif font (Inter, Roboto, or similar)"
  const ShadowsLine := "- Shadows: Use subtle shadows to create depth and hierarchy"
  const ChartsLine := "- Charts: Use consistent styling across all data visualizations"

  const OutputOpening :=
    "Provide a complete dashboard UI design including:"
    + "\n- Overall layout structure with grid system"
    + "\n- Sidebar/navigation component design"
    + "\n- Dashboard header with breadcrumbs and actions"
    + "\n- Individual widget/card designs for each data visualization"

  const OutputClosing :=
    "- Typography scale and hierarchy"
    + "\n- Interactive states (hover, active, disabled)"
    + "\n- Sample data visualizations with proper labeling and legends"

  /** The KEY FEATURES body: one bullet per feature, or the single fallback bullet. */
  function FeatureBlock(features: seq<string>): string
  {
    if |features| > 0 then BulletBlock(features) else NoFeatures
  }

  function DashboardPrompt(f: Fields): Prompt
  {
    Prompt(
      [IntroOpening + ToLower(f.dashboardType) + IntroClosing],
      [Section("DASHBOARD SPECIFICATIONS",
         ["- Dashboard Type: " + f.dashboardType,
          "- Theme: " + f.theme,
          "- Color Accent: " + f.colorScheme,
          "- Information Density: " + f.density]),
       Section("LAYOUT & NAVIGATION",
         ["- Navigation Style: " + f.sidebarStyle,
          "- Layout Style: " + f.layout]),
       Section("DATA VISUALIZATION",
         ["Include the following visualization components:", BulletBlock(f.visualizations)]),
       Section("KEY FEATURES", [FeatureBlock(f.features)]),
       Section("DESIGN REQUIREMENTS", [Join(RequirementLines(f.dashboardType, f.theme, f.density), "\n")]),
       Section("USER EXPERIENCE CONSIDERATIONS", [UserExperienceLines]),
       Section("ACCESSIBILITY & PERFORMANCE", [AccessibilityLines]),
       Section("VISUAL DESIGN",
         [TypographyLine,
          "- Spacing: " + GetDensitySpacing(f.density),
          ShadowsLine,
          "- Colors: " + ColorGuidance(f.theme, f.colorScheme),
          ChartsLine]),
       Section("OUTPUT",
         [OutputOpening,
          "- Color palette with specific values for " + ToLower(f.theme),
          OutputClosing])])
  }

  /** `dashboardTemplate.generate`; the tech stack is accepted and not read. */
  function Generate(config: TemplateConfig, techStack: TechStack): Result<string, PromptError>
  {
    match ReadFields(config)
    case Err(e) => Err(e)
    case Ok(f) => Ok(Render(DashboardPrompt(f)))
  }

  const DashboardTitles := ["DASHBOARD SPECIFICATIONS", "LAYOUT & NAVIGATION", "DATA VISUALIZATION", "KEY FEATURES",
                            "DESIGN REQUIREMENTS", "USER EXPERIENCE CONSIDERATIONS", "ACCESSIBILITY & PERFORMANCE",
                            "VISUAL DESIGN", "OUTPUT"]

  /** Generation throws exactly when a field it calls a string method on does not hold a
      string, and it ignores the tech stack. Otherwise the text holds every section heading,
      one bullet per requested visualization and feature, and the fallback feature line when
      no feature is requested. */
  lemma GeneratedText(config: TemplateConfig, techStack: TechStack, otherStack: TechStack)
    ensures Generate(config, techStack).Err?
        <==> (TextField(config, "dashboardType").None? || TextField(config, "theme").None?
              || TextField(config, "density").None? || TextField(config, "colorScheme").None?)
    ensures Generate(config, techStack).Err? ==> Generate(config, techStack).error == NotAString
    ensures Generate(config, techStack) == Generate(config, otherStack)
    ensures Generate(config, techStack).Ok? ==>
              && (forall i :: 0 <= i < |DashboardTitles| ==> Contains(Generate(config, techStack).value, "## " + DashboardTitles[i]))
              && (forall k :: 0 <= k < |ListField(config, "dataVisualization")| ==>
                    Contains(Generate(config, techStack).value, "- " + ListField(config, "dataVisualization")[k]))
              && (forall k :: 0 <= k < |ListField(config, "features")| ==>
                    Contains(Generate(config, techStack).value, "- " + ListField(config, "features")[k]))
              && (|ListField(config, "features")| == 0 ==> Contains(Generate(config, techStack).value, NoFeatures))
  {
    if Generate(config, techStack).Ok? {
      var f := ReadFields(config).value;
      var p := DashboardPrompt(f);
      assert Generate(config, techStack).value == Render(p);
      DashboardPromptTitles(f);
      DashboardListSections(f);
      RenderContainsTitles(p);
      RenderContainsBullets(p, 2, 1, f.visualizations);
      if |f.features| > 0 {
        RenderContainsBullets(p, 3, 0, f.features);
      } else {
        RenderContainsSection(p, 3, 0);
      }
    }
  }


  /** The section headings, in order. */
  lemma DashboardPromptTitles(f: Fields)
    ensures Titles(DashboardPrompt(f).sections)
         == ["DASHBOARD SPECIFICATIONS", "LAYOUT & NAVIGATION", "DATA VISUALIZATION", "KEY FEATURES",
             "DESIGN REQUIREMENTS", "USER EXPERIENCE CONSIDERATIONS", "ACCESSIBILITY & PERFORMANCE",
             "VISUAL DESIGN", "OUTPUT"]
  {
  }

  /** One bullet per visualization in order; the features likewise, or the single fallback
      bullet when there are none. */
  lemma DashboardListSections(f: Fields)
    ensures DashboardPrompt(f).sections[2].body[1] == Join(Bullets(f.visualizations), "\n")
    ensures |f.features| == 0 ==> DashboardPrompt(f).sections[3].body == [NoFeatures]
    ensures |f.features| > 0 ==> DashboardPrompt(f).sections[3].body == [Join(Bullets(f.features), "\n")]
  {
  }
}
