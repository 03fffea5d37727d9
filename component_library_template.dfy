/** src/templates/componentLibrary/componentLibraryTemplate.ts: the component-library prompt,
    whose palette line and specification items 5 and 7 depend on exact feature membership. */
module ComponentLibraryTemplate {
  import opened Wrappers
  import opened Strings
  import opened Selection
  import opened Types
  import opened Prompts

  /** The configuration fields the template destructures. `libraryType` and `variants` have
      string methods called on them. */
  datatype Fields = Fields(
    libraryType: string,
    style: string,
    variants: string,
    components: seq<string>,
    features: seq<string>)

  function ReadFields(config: TemplateConfig): (r: Result<Fields, PromptError>)
    ensures r.Ok? <==> TextField(config, "libraryType").Some? && TextField(config, "variants").Some?
    ensures r.Err? ==> r.error == NotAString
    ensures r.Ok? ==> r.value.libraryType == TextField(config, "libraryType").value
                      && r.value.variants == TextField(config, "variants").value
                      && r.value.components == ListField(config, "components")
                      && r.value.features == ListField(config, "features")
  {
    match (TextField(config, "libraryType"), TextField(config, "variants"))
    case (Some(libraryType), Some(variants)) =>
      Ok(Fields(libraryType, Interpolate(config, "style"), variants,
                ListField(config, "components"), ListField(config, "features")))
    case _ => Err(NotAString)
  }

  // Variant guidance.

  const SingleVariant := "Single primary variant"
  const StandardVariants := "Primary, secondary, and outline/ghost variants"
  const FullVariants := "Primary, secondary, outline, ghost, link, and specialized variants (danger, success, etc.)"

  /** `Basic` is tested before `Standard`; anything else gets the full variant set. */
  const VariantRules: seq<Rule<string>> := [
    Rule(["Basic"], SingleVariant),
    Rule(["Standard"], StandardVariants)]

  /** `getVariantGuidance`. */
  function GetVariantGuidance(variants: string): string
  {
    if Contains(variants, "Basic") then SingleVariant
    else if Contains(variants, "Standard") then StandardVariants
    else FullVariants
  }

  /** The branches are the variant table read top to bottom, with the full set as fallback. */
  lemma VariantGuidanceIsFirstMatch(variants: string)
    ensures GetVariantGuidance(variants) == Choose(VariantRules, variants, FullVariants)
  {
    assert Fires(VariantRules[0], variants) <==> Contains(variants, "Basic") by { assert VariantRules[0].patterns == ["Basic"]; }
    assert Fires(VariantRules[1], variants) <==> Contains(variants, "Standard") by { assert VariantRules[1].patterns == ["Standard"]; }
    assert ChooseFrom(VariantRules, 2, variants, FullVariants) == FullVariants;
    assert ChooseFrom(VariantRules, 1, variants, FullVariants)
        == if Contains(variants, "Standard") then StandardVariants else FullVariants;
  }

  // Feature-dependent lines: whole-element membership, not substring tests.

  const DarkModeFeature := "Dark Mode Support"
  const AccessibilityFeature := "Accessibility (WCAG 2.1)"
  const DarkPalette := "Separate dark mode palette"

  /** The last palette bullet: `- ` followed by the dark palette note or by nothing. */
  function PaletteLine(features: seq<string>): string
  {
    "- " + (if DarkModeFeature in features then DarkPalette else "")
  }

  /** Heading and text of specification item 5. */
  function ItemFive(features: seq<string>): (string, string)
  {
    if AccessibilityFeature in features then ("Accessibility", "ARIA labels, keyboard navigation, focus indicators")
    else ("Usage", "When and how to use each variant")
  }

  /** Heading and text of specification item 7. */
  function ItemSeven(features: seq<string>): (string, string)
  {
    if DarkModeFeature in features then ("Dark Mode", "Dark mode variant designs")
    else ("Colors", "Color usage for each variant")
  }

  /** Dark mode support alone decides the palette line and item 7; accessibility alone decides item 5. */
  lemma FeatureLines(features: seq<string>)
    ensures PaletteLine(features) == "- " + DarkPalette <==> DarkModeFeature in features
    ensures PaletteLine(features) == "- " <==> DarkModeFeature !in features
    ensures ItemSeven(features).0 == "Dark Mode" <==> DarkModeFeature in features
    ensures ItemFive(features).0 == "Accessibility" <==> AccessibilityFeature in features
  {
    assert |"- " + DarkPalette| > 2;
    assert "Dark Mode"[0] != "Colors"[0];
    assert "Accessibility"[0] != "Usage"[0];
  }

  /** A feature that merely contains `Dark Mode Support` does not count: the test is whole-element
      equality, unlike the substring test of the variant guidance. */
  lemma MembershipIsExact()
    ensures Contains("Dark Mode Support (beta)", DarkModeFeature)
    ensures PaletteLine(["Dark Mode Support (beta)"]) == "- "
    ensures ItemSeven(["Dark Mode Support (beta)"]).0 == "Colors"
    ensures GetVariantGuidance("Basic (one variant)") == SingleVariant
  {
    assert DarkModeFeature <= "Dark Mode Support (beta)";
    assert DarkModeFeature != "Dark Mode Support (beta)" by {
      assert |DarkModeFeature| != |"Dark Mode Support (beta)"|;
    }
    assert "Basic" <= "Basic (one variant)";
  }

  // The prompt.

  const IntroOpening := "Act as an expert UI designer creating a comprehensive "

  const PaletteBase :=
    "- Primary color family (50-950 shades)"
    + "\n- Secondary/accent colors"
    + "\n- Semantic colors (success, warning, error, info)"
    + "\n- Neutral grays (background, borders, text)"

  const FoundationRest :=
    "### Typography"
    + "\n- Font family selection (heading and body)"
    + "\n- Type scale (12px to 48px or rem equivalents)"
    + "\n- Font weights (regular, medium, semibold, bold)"
    + "\n- Line heights and letter spacing"
    + "\n"
    + "\n### Spacing System"
    + "\n- Base unit (4px or 8px)"
    + "\n- Spacing scale (4, 8, 12, 16, 24, 32, 48, 64, 96px)"
    + "\n- Consistent padding and margin values"
    + "\n"
    + "\n### Border Radius"
    + "\n- None, small, medium, large, full"
    + "\n- Consistent rounding across components"
    + "\n"
    + "\n### Shadows"
    + "\n- Elevation scale (shadow-sm to shadow-2xl)"
    + "\n- Usage guidelines for depth and hierarchy"

  const VisualDesignItem := "1. **Visual Design**: Complete mockup showing all variants"
  const StatesAndSizesItems :=
    "3. **States**: Default, hover, active, focus, disabled"
    + "\n4. **Sizes**: Small, medium, large (if applicable)"
  const SpacingItem := "6. **Spacing**: Internal padding and external margins"

  const ConsistencyLines :=
    "- Use the defined color palette consistently"
    + "\n- Apply spacing system uniformly"
    + "\n- Maintain consistent border radius across similar elements"
    + "\n- Use elevation/shadows purposefully for hierarchy"
    + "\n- Ensure typography scale is applied correctly"

  const DocumentationLines :=
    "- Component anatomy (labeled parts)"
    + "\n- Usage guidelines and best practices"
    + "\n- Do's and don'ts for each component"
    + "\n- Code-ready specifications (exact values for all properties)"

  const OutputLines :=
    "Provide a complete component library design including:"
    + "\n- Design system foundation (colors, typography, spacing)"
    + "\n- Individual component designs with all variants and states"
    + "\n- Visual consistency guidelines"
    + "\n- Accessibility annotations"
    + "\n- Usage examples showing components in context"

  function LibraryPrompt(f: Fields): Prompt
  {
    Prompt(
      [IntroOpening + ToLower(f.libraryType) + ". Design a " + f.style
       + " component library with consistent, reusable components."],
      [Section("LIBRARY SPECIFICATIONS",
         ["- Library Type: " + f.libraryType,
          "- Design Style: " + f.style,
          "- Variant Complexity: " + f.variants]),
       Section("COMPONENTS TO DESIGN", [BulletBlock(f.components)]),
       Section("FEATURES & REQUIREMENTS", [BulletBlock(f.features)]),
       Section("DESIGN SYSTEM FOUNDATION",
         ["", "### Color Palette", PaletteBase, PaletteLine(f.features), "", FoundationRest]),
       Section("COMPONENT SPECIFICATIONS",
         ["", "For each component, provide:",
          VisualDesignItem,
          "2. **Variants**: " + GetVariantGuidance(f.variants),
          StatesAndSizesItems,
          "5. **" + ItemFive(f.features).0 + "**: " + ItemFive(f.features).1,
          SpacingItem,
          "7. **" + ItemSeven(f.features).0 + "**: " + ItemSeven(f.features).1]),
       Section("CONSISTENCY GUIDELINES", [ConsistencyLines]),
       Section("DOCUMENTATION", [DocumentationLines]),
       Section("OUTPUT", [OutputLines])])
  }

  /** `componentLibraryTemplate.generate`; the tech stack is accepted and not read. */
  function Generate(config: TemplateConfig, techStack: TechStack): Result<string, PromptError>
  {
    match ReadFields(config)
    case Err(e) => Err(e)
    case Ok(f) => Ok(Render(LibraryPrompt(f)))
  }

  const LibraryTitles := ["LIBRARY SPECIFICATIONS", "COMPONENTS TO DESIGN", "FEATURES & REQUIREMENTS", "DESIGN SYSTEM FOUNDATION",
                          "COMPONENT SPECIFICATIONS", "CONSISTENCY GUIDELINES", "DOCUMENTATION", "OUTPUT"]

  /** Generation throws exactly when a field it calls a string method on does not hold a
      string, and it ignores the tech stack. Otherwise the text holds every section heading,
      one bullet per requested component and feature, and the variant guidance chosen for the
      variants field. */
  lemma GeneratedText(config: TemplateConfig, techStack: TechStack, otherStack: TechStack)
    ensures Generate(config, techStack).Err?
        <==> (TextField(config, "libraryType").None? || TextField(config, "variants").None?)
    ensures Generate(config, techStack).Err? ==> Generate(config, techStack).error == NotAString
    ensures Generate(config, techStack) == Generate(config, otherStack)
    ensures Generate(config, techStack).Ok? ==>
              && (forall i :: 0 <= i < |LibraryTitles| ==> Contains(Generate(config, techStack).value, "## " + LibraryTitles[i]))
              && (forall k :: 0 <= k < |ListField(config, "components")| ==>
                    Contains(Generate(config, techStack).value, "- " + ListField(config, "components")[k]))
              && (forall k :: 0 <= k < |ListField(config, "features")| ==>
                    Contains(Generate(config, techStack).value, "- " + ListField(config, "features")[k]))
              && Contains(Generate(config, techStack).value,
                          "2. **Variants**: " + GetVariantGuidance(TextField(config, "variants").value))
  {
    if Generate(config, techStack).Ok? {
      var f := ReadFields(config).value;
      var p := LibraryPrompt(f);
      assert Generate(config, techStack).value == Render(p);
      LibraryPromptShape(f);
      VariantGuidanceIsFirstMatch(f.variants);
      RenderContainsTitles(p);
      RenderContainsBullets(p, 1, 0, f.components);
      RenderContainsBullets(p, 2, 0, f.features);
      RenderContainsSection(p, 4, 3);
    }
  }


  /** Section order; one bullet per component and per feature, in list order; the palette line
      and items 2, 5 and 7 in place. */
  lemma LibraryPromptShape(f: Fields)
    ensures Titles(LibraryPrompt(f).sections)
         == ["LIBRARY SPECIFICATIONS", "COMPONENTS TO DESIGN", "FEATURES & REQUIREMENTS", "DESIGN SYSTEM FOUNDATION",
             "COMPONENT SPECIFICATIONS", "CONSISTENCY GUIDELINES", "DOCUMENTATION", "OUTPUT"]
    ensures LibraryPrompt(f).sections[1].body == [Join(Bullets(f.components), "\n")]
    ensures LibraryPrompt(f).sections[2].body == [Join(Bullets(f.features), "\n")]
    ensures LibraryPrompt(f).sections[3].body[3] == PaletteLine(f.features)
    ensures LibraryPrompt(f).sections[4].body[3] == "2. **Variants**: " + Choose(VariantRules, f.variants, FullVariants)
  {
    VariantGuidanceIsFirstMatch(f.variants);
  }
}
