/** src/templates/website/websiteTemplate.ts: the website prompt, its rule-chosen design
    requirements and the design-system section. */
module WebsiteTemplate {
  import opened Wrappers
  import opened Strings
  import opened Selection
  import opened Types
  import opened Prompts
  import opened DesignSystems

  /** The configuration fields the template destructures. `websiteType`, `aestheticStyle`
      and `copywritingTone` have string methods called on them; the rest are only printed. */
  datatype Fields = Fields(
    websiteType: string,
    aestheticStyle: string,
    copywritingTone: string,
    layout: string,
    colorScheme: string,
    interactivity: string,
    components: seq<string>)

  function ReadFields(config: TemplateConfig): (r: Result<Fields, PromptError>)
    ensures r.Ok? <==> TextField(config, "websiteType").Some? && TextField(config, "aestheticStyle").Some?
                       && TextField(config, "copywritingTone").Some?
    ensures r.Err? ==> r.error == NotAString
    ensures r.Ok? ==> r.value.websiteType == TextField(config, "websiteType").value
                      && r.value.aestheticStyle == TextField(config, "aestheticStyle").value
                      && r.value.copywritingTone == TextField(config, "copywritingTone").value
                      && r.value.components == ListField(config, "components")
  {
    match (TextField(config, "websiteType"), TextField(config, "aestheticStyle"), TextField(config, "copywritingTone"))
    case (Some(websiteType), Some(aestheticStyle), Some(tone)) =>
      Ok(Fields(websiteType, aestheticStyle, tone, Interpolate(config, "layout"), Interpolate(config, "colorScheme"),
                Interpolate(config, "interactivity"), ListField(config, "components")))
    case _ => Err(NotAString)
  }

  // Requirement bullets, by the rule that adds them.

  const ECommerceRequirements := [
    "- Product showcase must be visually compelling with clear pricing",
    "- Shopping cart and checkout flow should be intuitive",
    "- Trust signals (security badges, reviews) prominently displayed"]
  const SaasRequirements := [
    "- Benefits-driven messaging highlighting key features",
    "- Clear pricing tiers with feature comparison",
    "- Strong emphasis on CTA buttons (Sign Up, Start Free Trial)"]
  const PortfolioRequirements := [
    "- Visual showcase of work/projects as primary focus",
    "- About section highlighting skills and expertise",
    "- Easy contact method prominently displayed"]
  const LandingRequirements := [
    "- Single, focused conversion goal with clear CTAs",
    "- Persuasive copy emphasizing benefits and outcomes",
    "- Social proof (testimonials, stats, logos) for credibility"]

  const CleanStyleRequirements := [
    "- Ample whitespace with clean, uncluttered layouts",
    "- Professional color palette (blues, grays with accent colors)"]
  const MinimalistStyleRequirements := [
    "- Extreme simplicity with focus on essential elements only",
    "- Limited color palette (2-3 colors maximum)"]
  const GlassmorphismStyleRequirements := [
    "- Frosted glass effect with backdrop blur on cards/panels",
    "- Layered UI elements with transparency and depth"]
  const BrutalistStyleRequirements := [
    "- Bold, unconventional layout breaking traditional grids",
    "- High contrast colors and raw, unpolished aesthetic"]

  const PricingRequirement := "- Pricing table with clear feature comparison and highlighted recommended plan"
  const TestimonialsRequirement := "- Testimonials with photos, names, and roles for authenticity"
  const FaqRequirement := "- FAQ section with collapsible accordion for easy scanning"

  /** Website-type rules, highest priority first. */
  const TypeRules: seq<Rule<seq<string>>> := [
    Rule(["E-commerce"], ECommerceRequirements),
    Rule(["SaaS"], SaasRequirements),
    Rule(["Portfolio"], PortfolioRequirements),
    Rule(["Landing"], LandingRequirements)]

  /** Aesthetic-style rules, highest priority first; the first fires on `SaaS` or `Clean`. */
  const StyleRules: seq<Rule<seq<string>>> := [
    Rule(["SaaS", "Clean"], CleanStyleRequirements),
    Rule(["Minimalist"], MinimalistStyleRequirements),
    Rule(["Glassmorphism"], GlassmorphismStyleRequirements),
    Rule(["Brutalist"], BrutalistStyleRequirements)]

  /** Component rules: each adds its line independently when some component contains its pattern. */
  const ComponentRules: seq<(string, string)> := [
    ("Pricing", PricingRequirement),
    ("Testimonials", TestimonialsRequirement),
    ("FAQ", FaqRequirement)]

  predicate SomeContains(items: seq<string>, pattern: string)
  {
    exists c :: c in items && Contains(c, pattern)
  }

  /** The lines of the component rules that fire, in table order. */
  function ComponentLines(rules: seq<(string, string)>, components: seq<string>): (r: seq<string>)
    ensures |r| <= |rules|
  {
    if |rules| == 0 then []
    else (if SomeContains(components, rules[0].0) then [rules[0].1] else []) + ComponentLines(rules[1..], components)
  }

  /** The requirement lines: the type block, then the style block, then the component lines. */
  function RequirementLines(websiteType: string, aestheticStyle: string, components: seq<string>): seq<string>
  {
    Choose(TypeRules, websiteType, []) + Choose(StyleRules, aestheticStyle, []) + ComponentLines(ComponentRules, components)
  }

  /** The type rule table read top to bottom is the `else if` chain on `websiteType`. */
  lemma TypeChoice(websiteType: string)
    ensures Choose(TypeRules, websiteType, [])
         == if Contains(websiteType, "E-commerce") then ECommerceRequirements
            else if Contains(websiteType, "SaaS") then SaasRequirements
            else if Contains(websiteType, "Portfolio") then PortfolioRequirements
            else if Contains(websiteType, "Landing") then LandingRequirements
            else []
  {
    assert Fires(TypeRules[0], websiteType) <==> Contains(websiteType, "E-commerce") by { assert TypeRules[0].patterns == ["E-commerce"]; }
    assert Fires(TypeRules[1], websiteType) <==> Contains(websiteType, "SaaS") by { assert TypeRules[1].patterns == ["SaaS"]; }
    assert Fires(TypeRules[2], websiteType) <==> Contains(websiteType, "Portfolio") by { assert TypeRules[2].patterns == ["Portfolio"]; }
    assert Fires(TypeRules[3], websiteType) <==> Contains(websiteType, "Landing") by { assert TypeRules[3].patterns == ["Landing"]; }
    assert ChooseFrom(TypeRules, 4, websiteType, []) == [];
    assert ChooseFrom(TypeRules, 3, websiteType, []) == if Contains(websiteType, "Landing") then LandingRequirements else [];
    assert ChooseFrom(TypeRules, 2, websiteType, [])
        == if Contains(websiteType, "Portfolio") then PortfolioRequirements else ChooseFrom(TypeRules, 3, websiteType, []);
    assert ChooseFrom(TypeRules, 1, websiteType, [])
        == if Contains(websiteType, "SaaS") then SaasRequirements else ChooseFrom(TypeRules, 2, websiteType, []);
  }

  /** The style rule table read top to bottom is the `else if` chain on `aestheticStyle`. */
  lemma StyleChoice(aestheticStyle: string)
    ensures Choose(StyleRules, aestheticStyle, [])
         == if Contains(aestheticStyle, "SaaS") || Contains(aestheticStyle, "Clean") then CleanStyleRequirements
            else if Contains(aestheticStyle, "Minimalist") then MinimalistStyleRequirements
            else if Contains(aestheticStyle, "Glassmorphism") then GlassmorphismStyleRequirements
            else if Contains(aestheticStyle, "Brutalist") then BrutalistStyleRequirements
            else []
  {
    assert Fires(StyleRules[0], aestheticStyle) <==> Contains(aestheticStyle, "SaaS") || Contains(aestheticStyle, "Clean") by {
      assert StyleRules[0].patterns == ["SaaS", "Clean"];
    }
    assert Fires(StyleRules[1], aestheticStyle) <==> Contains(aestheticStyle, "Minimalist") by { assert StyleRules[1].patterns == ["Minimalist"]; }
    assert Fires(StyleRules[2], aestheticStyle) <==> Contains(aestheticStyle, "Glassmorphism") by { assert StyleRules[2].patterns == ["Glassmorphism"]; }
    assert Fires(StyleRules[3], aestheticStyle) <==> Contains(aestheticStyle, "Brutalist") by { assert StyleRules[3].patterns == ["Brutalist"]; }
    assert ChooseFrom(StyleRules, 4, aestheticStyle, []) == [];
    assert ChooseFrom(StyleRules, 3, aestheticStyle, [])
        == if Contains(aestheticStyle, "Brutalist") then BrutalistStyleRequirements else [];
    assert ChooseFrom(StyleRules, 2, aestheticStyle, [])
        == if Contains(aestheticStyle, "Glassmorphism") then GlassmorphismStyleRequirements
           else ChooseFrom(StyleRules, 3, aestheticStyle, []);
    assert ChooseFrom(StyleRules, 1, aestheticStyle, [])
        == if Contains(aestheticStyle, "Minimalist") then MinimalistStyleRequirements
           else ChooseFrom(StyleRules, 2, aestheticStyle, []);
  }

  /** Each component rule contributes its line iff some component contains its pattern,
      independently of the others and in the fixed order Pricing, Testimonials, FAQ. */
  lemma ComponentLinesAre(components: seq<string>)
    ensures ComponentLines(ComponentRules, components)
         == (if SomeContains(components, "Pricing") then [PricingRequirement] else [])
          + (if SomeContains(components, "Testimonials") then [TestimonialsRequirement] else [])
          + (if SomeContains(components, "FAQ") then [FaqRequirement] else [])
  {
    var r1 := ComponentRules[1..];
    var r2 := r1[1..];
    assert r1 == [("Testimonials", TestimonialsRequirement), ("FAQ", FaqRequirement)];
    assert r2 == [("FAQ", FaqRequirement)];
    assert r2[1..] == [];
    assert ComponentLines(r2, components) == (if SomeContains(components, "FAQ") then [FaqRequirement] else []);
  }

  /** `generateRequirements`: pushes bullets onto a local list, then joins them with newlines.
      Its three stages (type, style, components) are the three methods below. */
  method GenerateRequirements(websiteType: string, aestheticStyle: string, components: seq<string>) returns (r: string)
    ensures r == Join(RequirementLines(websiteType, aestheticStyle, components), "\n")
  {
    var requirements := PushTypeRequirements([], websiteType);
    assert requirements == Choose(TypeRules, websiteType, []);
    requirements := PushStyleRequirements(requirements, aestheticStyle);
    requirements := PushComponentRequirements(requirements, components);
    r := Join(requirements, "\n");
  }

  method PushTypeRequirements(requirements: seq<string>, websiteType: string) returns (r: seq<string>)
    ensures r == requirements + Choose(TypeRules, websiteType, [])
  {
    r := requirements;
    if Contains(websiteType, "E-commerce") {
      r := r + ECommerceRequirements;
    } else if Contains(websiteType, "SaaS") {
      r := r + SaasRequirements;
    } else if Contains(websiteType, "Portfolio") {
      r := r + PortfolioRequirements;
    } else if Contains(websiteType, "Landing") {
      r := r + LandingRequirements;
    }
    TypeChoice(websiteType);
  }

  method PushStyleRequirements(requirements: seq<string>, aestheticStyle: string) returns (r: seq<string>)
    ensures r == requirements + Choose(StyleRules, aestheticStyle, [])
  {
    r := requirements;
    if Contains(aestheticStyle, "SaaS") || Contains(aestheticStyle, "Clean") {
      r := r + CleanStyleRequirements;
    } else if Contains(aestheticStyle, "Minimalist") {
      r := r + MinimalistStyleRequirements;
    } else if Contains(aestheticStyle, "Glassmorphism") {
      r := r + GlassmorphismStyleRequirements;
    } else if Contains(aestheticStyle, "Brutalist") {
      r := r + BrutalistStyleRequirements;
    }
    StyleChoice(aestheticStyle);
  }

  method PushComponentRequirements(requirements: seq<string>, components: seq<string>) returns (r: seq<string>)
    ensures r == requirements + ComponentLines(ComponentRules, components)
  {
    r := requirements;
    ghost var added: seq<string> := [];
    if SomeContains(components, "Pricing") {
      AppendAssoc(requirements, added, [PricingRequirement]);
      r := r + [PricingRequirement];
      added := added + [PricingRequirement];
    }
    if SomeContains(components, "Testimonials") {
      AppendAssoc(requirements, added, [TestimonialsRequirement]);
      r := r + [TestimonialsRequirement];
      added := added + [TestimonialsRequirement];
    }
    if SomeContains(components, "FAQ") {
      AppendAssoc(requirements, added, [FaqRequirement]);
      r := r + [FaqRequirement];
      added := added + [FaqRequirement];
    }
    ComponentLinesAre(components);
  }

  lemma AppendAssoc(a: seq<string>, b: seq<string>, c: seq<string>)
    ensures (a + b) + c == a + (b + c)
  {
  }

  predicate TypeRuleFires(websiteType: string)
  {
    Contains(websiteType, "E-commerce") || Contains(websiteType, "SaaS")
    || Contains(websiteType, "Portfolio") || Contains(websiteType, "Landing")
  }

  predicate StyleRuleFires(aestheticStyle: string)
  {
    Contains(aestheticStyle, "SaaS") || Contains(aestheticStyle, "Clean") || Contains(aestheticStyle, "Minimalist")
    || Contains(aestheticStyle, "Glassmorphism") || Contains(aestheticStyle, "Brutalist")
  }

  /** A matching website type contributes exactly three bullets, no match none. */
  lemma TypeBlockSize(websiteType: string)
    ensures |Choose(TypeRules, websiteType, [])| == if TypeRuleFires(websiteType) then 3 else 0
  {
    TypeChoice(websiteType);
  }

  /** A matching aesthetic style contributes exactly two bullets, no match none. */
  lemma StyleBlockSize(aestheticStyle: string)
    ensures |Choose(StyleRules, aestheticStyle, [])| == if StyleRuleFires(aestheticStyle) then 2 else 0
  {
    StyleChoice(aestheticStyle);
  }

  /** Joined requirements are empty exactly when no rule fires. */
  lemma RequirementsEmptyIffNoRule(websiteType: string, aestheticStyle: string, components: seq<string>)
    ensures Join(RequirementLines(websiteType, aestheticStyle, components), "\n") == ""
        <==> !TypeRuleFires(websiteType) && !StyleRuleFires(aestheticStyle)
             && !SomeContains(components, "Pricing") && !SomeContains(components, "Testimonials")
             && !SomeContains(components, "FAQ")
  {
    var lines := RequirementLines(websiteType, aestheticStyle, components);
    TypeBlockSize(websiteType);
    StyleBlockSize(aestheticStyle);
    ComponentLinesAre(components);
    JoinEmpty(lines, "\n");
    if |lines| == 1 {
      assert |PricingRequirement| > 0 && |TestimonialsRequirement| > 0 && |FaqRequirement| > 0;
    }
  }

  /** With a non-empty separator, a join is empty only for no parts or one empty part. */
  lemma JoinEmpty(parts: seq<string>, sep: string)
    requires |sep| > 0
    ensures Join(parts, sep) == "" <==> |parts| == 0 || (|parts| == 1 && parts[0] == "")
  {
  }

  // The design-system section.

  /** The Tailwind v4 paragraph, with the blank line before it and the newline after it. */
  const TailwindImplementation :=
    "\n**Tailwind v4 Implementation**:"
    + "\n- Use OKLAB color values with opacity: `bg-[oklch(100%_0_0_/_0.75)]`"
    + "\n- Backdrop blur: `backdrop-blur-md` (16px)"
    + "\n- Color mixing for borders: Use inline styles with color-mix()"
    + "\n- Example navbar: `className=\"fixed top-2 inset-x-0 z-50 flex justify-center px-4\"`"
    + "\n  - Inner: `className=\"flex items-center justify-between rounded-lg py-1.5 px-4 bg-card/75 backdrop-blur-md border border-border/80 shadow-lg\"`"
    + "\n"

  /** The Tailwind v4 block closing the glass section; empty for any other stack. */
  function TailwindBlock(techStack: TechStack): string
  {
    if TechStackLabel(techStack) == "React + Tailwind v4" then TailwindImplementation else ""
  }

  /** `scale.map(s => s + unit).join(', ')`. */
  function ScaleWithUnit(scale: seq<string>, unit: string): (r: seq<string>)
    ensures |r| == |scale|
    ensures forall i :: 0 <= i < |r| ==> r[i] == scale[i] + unit
  {
    if |scale| == 0 then [] else [scale[0] + unit] + ScaleWithUnit(scale[1..], unit)
  }

  // Fixed paragraphs of the glass section; each holds several lines of the prompt.

  const GlassColorNotes :=
    "- Borders: Use 80% opacity for subtle definition"
    + "\n- Use OKLAB color space for color-mix() operations for perceptually uniform transparency"

  const GlassEffects :=
    "**Glass Morphism Effects**:"
    + "\n- Apply backdrop-filter: blur(16px) to navigation and translucent elements"
    + "\n- Use translucent backgrounds (75% opacity) with subtle borders"
    + "\n- Layer UI elements with proper depth hierarchy"
    + "\n- Smooth color transitions on all interactive states"

  const GlassTextOpacityNotes :=
    "- Secondary text: Use foreground color at 70% opacity"
    + "\n- Hover state: Transition from 70% to 100% opacity"

  const GlassLayoutNotes :=
    "- Navigation: Fixed at top with inset-x-0, centered with max-width constraint"
    + "\n- Sections: Full-width with constrained content (max-w-5xl)"

  const GlassNavigationNotes :=
    "- Implementation: `fixed top-2 inset-x-0 z-50`"
    + "\n- Style: `bg-card/75 backdrop-blur-md border border-border/80`"
    + "\n- Shadow: `shadow-lg` with smooth transitions"

  const GlassButtonNotes :=
    "- Base: `h-8 px-3 gap-1.5 rounded-md`"
    + "\n- Text: `text-sm font-medium`"
    + "\n- Colors: `text-foreground/70 hover:text-foreground`"
    + "\n- Transitions: `transition-colors duration-100`"

  const GlassCardNotes :=
    "- Style: `rounded-lg border border-border/80`"
    + "\n- Optional glass: `bg-card/75 backdrop-blur-md`"

  const GlassEasingNote := "- Easing: cubic-bezier(0.25, 0.46, 0.45, 0.94) for smooth deceleration"

  const GlassFocusIconsDarkMode :=
    "**Focus States** (Accessibility):"
    + "\n- Ring: `focus-visible:ring-1 focus-visible:ring-ring/50`"
    + "\n- Offset: `focus-visible:ring-offset-1`"
    + "\n- Remove default outline: `focus-visible:outline-none`"
    + "\n"
    + "\n**Icons**:"
    + "\n- Standard size: 16px (size-4)"
    + "\n- Social icons: 24px (size-6)"
    + "\n- Always use `shrink-0` and `pointer-events-none` on SVGs"
    + "\n"
    + "\n**Dark Mode** (if applicable):"
    + "\n- Use CSS custom properties for theme switching"
    + "\n- Automatic system preference detection"
    + "\n- Smooth transitions between themes"

  /** The detailed section written for the glass design system: its fixed text, closed by
      the stack-dependent Tailwind block. */
  function GlassLines(ds: DesignSystemConfig, techStack: TechStack): (r: seq<string>)
    ensures |r| >= 2 && r[0] == "" && r[|r| - 1] == TailwindBlock(techStack)
  {
    GlassBodyLines(ds) + [TailwindBlock(techStack)]
  }

  function GlassBodyLines(ds: DesignSystemConfig): (r: seq<string>)
    ensures |r| >= 2 && r[0] == ""
  {
    ["", ""] + GlassSectionLines(ds)
  }

  function GlassSectionLines(ds: DesignSystemConfig): seq<string>
  {
    ["### " + ds.name + " Design System", "",
     "**Visual Philosophy**: " + ds.description, "",
     "**Color System**:",
     "- Background: " + ds.colors.background,
     "- Foreground: " + ds.colors.foreground,
     "- Card backgrounds: Use 75% opacity (" + ds.colors.card + ")",
     GlassColorNotes, "",
     GlassEffects, "",
     "**Typography**:",
     "- Font Family: " + ds.typography.fontFamily,
     "- Font Sizes: " + Join(ds.typography.fontSizes, ", "),
     "- Font Weights: " + Join(ds.typography.fontWeights, ", ") + " (use 500 for buttons/emphasis)",
     GlassTextOpacityNotes, "",
     "**Spacing & Layout**:",
     "- Use consistent spacing scale: " + Join(ScaleWithUnit(ds.spacing.scale, ds.spacing.unit), ", "),
     GlassLayoutNotes, "",
     "**Border Radius**:",
     "- Small elements: " + ds.borderRadius.sm,
     "- Standard (buttons, inputs): " + ds.borderRadius.md,
     "- Large (cards, panels): " + ds.borderRadius.lg, "",
     "**Component Patterns**:", "",
     "**Navigation Bar**:", ds.patterns.navigation, GlassNavigationNotes, "",
     "**Buttons**:", ds.patterns.buttons, GlassButtonNotes, "",
     "**Cards**:", ds.patterns.cards, GlassCardNotes, "",
     "**Transitions & Animations**:",
     "- Fast (hover, focus): " + ds.transitions.duration.fast,
     "- Normal (modals, dropdowns): " + ds.transitions.duration.normal,
     "- Slow (page transitions): " + ds.transitions.duration.slow,
     GlassEasingNote, "",
     GlassFocusIconsDarkMode, "",
     "**Key Features to Implement**:",
     BulletBlock(ds.features), ""]
  }

  /** The short section written for any other design system. */
  function BasicLines(ds: DesignSystemConfig): (r: seq<string>)
    ensures |r| == 7 && r[0] == ""
  {
    ["", "", "### " + ds.name + " Style Guidelines", ds.description, "", "**Key Features**:", BulletBlock(ds.features)]
  }

  /** `generateDesignSystemGuidelines`. */
  function DesignSystemGuidelines(aestheticStyle: string, techStack: TechStack): string
  {
    match MapAestheticToDesignSystem(aestheticStyle)
    case None => ""
    case Some(id) =>
      match GetDesignSystem(id)
      case None => ""
      case Some(ds) => if id == GlassId then Join(GlassLines(ds, techStack), "\n") else Join(BasicLines(ds), "\n")
  }

  lemma JoinOfBlankStart(parts: seq<string>, sep: string)
    requires |parts| >= 2 && parts[0] == "" && |sep| > 0
    ensures |Join(parts, sep)| > 0
  {
  }

  /** The section is empty exactly when the style does not name a design system. */
  lemma GuidelinesEmptyIffUnmapped(aestheticStyle: string, techStack: TechStack)
    ensures DesignSystemGuidelines(aestheticStyle, techStack) == ""
        <==> MapAestheticToDesignSystem(aestheticStyle).None?
  {
    if aestheticStyle == "Portfolio Minimalist (Glass)" {
      GlassGuidelines(techStack);
      JoinOfBlankStart(GlassLines(PortfolioMinimalist, techStack), "\n");
    } else if aestheticStyle == "Modern Clean" {
      ModernCleanGuidelines(techStack);
      JoinOfBlankStart(BasicLines(ModernClean), "\n");
    }
  }

  /** The glass style gets the detailed section of the glass preset. */
  lemma GlassGuidelines(techStack: TechStack)
    ensures DesignSystemGuidelines("Portfolio Minimalist (Glass)", techStack)
         == Join(GlassLines(PortfolioMinimalist, techStack), "\n")
  {
    LookupRegistered();
  }

  /** The Modern Clean style gets the short section of its preset, whatever the stack. */
  lemma ModernCleanGuidelines(techStack: TechStack)
    ensures DesignSystemGuidelines("Modern Clean", techStack) == Join(BasicLines(ModernClean), "\n")
  {
    LookupRegistered();
  }

  /** The glass section closes with a non-empty Tailwind block exactly for React + Tailwind v4. */
  lemma TailwindBlockIffReact(techStack: TechStack)
    ensures TailwindBlock(techStack) != "" <==> techStack == ReactTailwind
  {
    assert |TailwindImplementation| > 0;
  }

  /** The basic section lists one bullet per feature of the design system, in order. */
  lemma BasicLinesFeatures(ds: DesignSystemConfig)
    ensures BasicLines(ds)[6] == Join(Bullets(ds.features), "\n")
    ensures forall i :: 0 <= i < |ds.features| ==> Bullets(ds.features)[i] == "- " + ds.features[i]
  {
  }

  // The prompt.

  const TailwindStyling := "Use Tailwind CSS v4 for all styling."
  const CssStyling := "Use modern CSS rules."

  function WebsitePrompt(f: Fields, techStack: TechStack): Prompt
  {
    var stack := TechStackLabel(techStack);
    Prompt(
      ["Act as an expert Frontend Engineer.",
       "Your task is to build a modern, high-quality website using **" + stack + "**."],
      [Section("Project Overview",
         ["- **Type**: " + f.websiteType,
          "- **Style**: " + f.aestheticStyle,
          "- **Layout**: " + f.layout,
          "- **Color Theme**: " + f.colorScheme]),
       Section("Functional Requirements",
         ["Please implement the following components and sections:",
          BulletBlock(f.components)]),
       Section("Technical Specifications",
         ["- **Tech Stack**: " + stack,
          "- **Interactivity**: " + f.interactivity,
          "- **Responsiveness**: Fully responsive (Mobile-first approach).",
          "- **Accessibility**: Ensure WCAG 2.1 AA compliance.",
          "- **Tone**: The copy should be " + ToLower(f.copywritingTone) + "."]),
       Section("Design Guidelines",
         [Join(RequirementLines(f.websiteType, f.aestheticStyle, f.components), "\n"),
          DesignSystemGuidelines(f.aestheticStyle, techStack)]),
       Section("Deliverables",
         ["Provide the complete code for the main page.",
          "- Use semantic HTML tags.",
          "- Use functional components with hooks.",
          "- " + (if stack == "React + Tailwind v4" then TailwindStyling else CssStyling),
          "- Ensure the code is clean, commented, and ready to run."])])
  }

  /** `websiteTemplate.generate`. */
  function Generate(config: TemplateConfig, techStack: TechStack): Result<string, PromptError>
  {
    match ReadFields(config)
    case Err(e) => Err(e)
    case Ok(f) => Ok(Render(WebsitePrompt(f, techStack)))
  }

  const WebsiteTitles := ["Project Overview", "Functional Requirements", "Technical Specifications", "Design Guidelines", "Deliverables"]

  /** Generation throws exactly when a field it calls a string method on does not hold a
      string. Otherwise the text holds every section heading, one `- c` bullet per requested
      component, and the styling line of the chosen stack. */
  lemma GeneratedText(config: TemplateConfig, techStack: TechStack)
    ensures Generate(config, techStack).Err?
        <==> (TextField(config, "websiteType").None? || TextField(config, "aestheticStyle").None?
              || TextField(config, "copywritingTone").None?)
    ensures Generate(config, techStack).Err? ==> Generate(config, techStack).error == NotAString
    ensures Generate(config, techStack).Ok? ==>
              && (forall i :: 0 <= i < |WebsiteTitles| ==> Contains(Generate(config, techStack).value, "## " + WebsiteTitles[i]))
              && (forall k :: 0 <= k < |ListField(config, "components")| ==>
                    Contains(Generate(config, techStack).value, "- " + ListField(config, "components")[k]))
              && Contains(Generate(config, techStack).value,
                          "- " + (if techStack == ReactTailwind then TailwindStyling else CssStyling))
  {
    if Generate(config, techStack).Ok? {
      var f := ReadFields(config).value;
      var p := WebsitePrompt(f, techStack);
      assert Generate(config, techStack).value == Render(p);
      WebsitePromptShape(f, techStack);
      RenderContainsTitles(p);
      RenderContainsBullets(p, 1, 1, f.components);
      RenderContainsSection(p, 4, 3);
    }
  }

  /** Section order, one bullet per component in list order, requirements and design-system
      section in the Design Guidelines section, and the Tailwind styling line iff the stack is
      React + Tailwind v4. */
  lemma WebsitePromptShape(f: Fields, techStack: TechStack)
    ensures Titles(WebsitePrompt(f, techStack).sections) == WebsiteTitles
    ensures WebsitePrompt(f, techStack).sections[1].body[1] == Join(Bullets(f.components), "\n")
    ensures WebsitePrompt(f, techStack).sections[3].body
         == [Join(RequirementLines(f.websiteType, f.aestheticStyle, f.components), "\n"),
             DesignSystemGuidelines(f.aestheticStyle, techStack)]
    ensures WebsitePrompt(f, techStack).sections[4].body[3] == "- " + TailwindStyling <==> techStack == ReactTailwind
  {
    var sections := WebsitePrompt(f, techStack).sections;
    assert |sections| == 5;
    assert sections[0].title == WebsiteTitles[0] && sections[1].title == WebsiteTitles[1];
    assert sections[2].title == WebsiteTitles[2] && sections[3].title == WebsiteTitles[3];
    assert sections[4].title == WebsiteTitles[4];
    assert TailwindStyling != CssStyling;
  }
}
