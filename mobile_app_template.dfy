/** src/templates/mobileApp/mobileAppTemplate.ts: the mobile-application prompt, whose
    platform section heading and body are chosen by the same precedence. */
module MobileAppTemplate {
  import opened Wrappers
  import opened Strings
  import opened Selection
  import opened Types
  import opened Prompts

  /** The configuration fields the template destructures. `appType`, `platform` and
      `designStyle` have string methods called on them. */
  datatype Fields = Fields(
    appType: string,
    platform: string,
    designStyle: string,
    navigationPattern: string,
    screens: seq<string>,
    interactions: seq<string>)

  function ReadFields(config: TemplateConfig): (r: Result<Fields, PromptError>)
    ensures r.Ok? <==> TextField(config, "appType").Some? && TextField(config, "platform").Some?
                       && TextField(config, "designStyle").Some?
    ensures r.Err? ==> r.error == NotAString
    ensures r.Ok? ==> r.value.appType == TextField(config, "appType").value
                      && r.value.platform == TextField(config, "platform").value
                      && r.value.designStyle == TextField(config, "designStyle").value
                      && r.value.screens == ListField(config, "screens")
                      && r.value.interactions == ListField(config, "interactions")
  {
    match (TextField(config, "appType"), TextField(config, "platform"), TextField(config, "designStyle"))
    case (Some(appType), Some(platform), Some(designStyle)) =>
      Ok(Fields(appType, platform, designStyle, Interpolate(config, "navigationPattern"),
                ListField(config, "screens"), ListField(config, "interactions")))
    case _ => Err(NotAString)
  }

  // Platform section.

  const IosHeading := "iOS DESIGN GUIDELINES"
  const AndroidHeading := "ANDROID MATERIAL DESIGN"
  const CrossPlatformHeading := "CROSS-PLATFORM DESIGN"

  const IosGuidelines :=
    "- Use SF Pro or system font"
    + "\n- Follow Apple's Human Interface Guidelines"
    + "\n- Use iOS native components (tab bars, navigation bars, alerts)"
    + "\n- Implement swipe-back gesture"
    + "\n- Use subtle shadows and rounded corners"
    + "\n- Light/Dark mode support"

  const AndroidGuidelines :=
    "- Use Roboto or Google Sans font"
    + "\n- Follow Material Design 3 guidelines"
    + "\n- Use Material components (FAB, bottom sheets, snackbars)"
    + "\n- Implement ripple effects for touch feedback"
    + "\n- Use elevation and surfaces appropriately"
    + "\n- Dynamic color theming"

  const CrossPlatformGuidelines :=
    "- Create unified design that feels native on both platforms"
    + "\n- Use cross-platform compatible components"
    + "\n- Maintain brand consistency while respecting platform conventions"
    + "\n- Test on both iOS and Android devices"
    + "\n- Consider React Native or Flutter component libraries"

  /** `iOS` over `Android` over the cross-platform fallback; each row pairs a heading with
      the body written under it. */
  const PlatformRules: seq<Rule<(string, string)>> := [
    Rule(["iOS"], (IosHeading, IosGuidelines)),
    Rule(["Android"], (AndroidHeading, AndroidGuidelines))]

  const CrossPlatform := (CrossPlatformHeading, CrossPlatformGuidelines)

  /** The nested ternary that writes the section heading. */
  function PlatformHeading(platform: string): string
  {
    if Contains(platform, "iOS") then IosHeading
    else if Contains(platform, "Android") then AndroidHeading
    else CrossPlatformHeading
  }

  /** `getPlatformGuidelines`. */
  function GetPlatformGuidelines(platform: string): string
  {
    if Contains(platform, "iOS") then IosGuidelines
    else if Contains(platform, "Android") then AndroidGuidelines
    else CrossPlatformGuidelines
  }

  /** Heading and body always come from the same row of the platform table, so they agree. */
  lemma HeadingAndBodyAgree(platform: string)
    ensures (PlatformHeading(platform), GetPlatformGuidelines(platform)) == Choose(PlatformRules, platform, CrossPlatform)
    ensures PlatformHeading(platform) == IosHeading ==> GetPlatformGuidelines(platform) == IosGuidelines
    ensures PlatformHeading(platform) == AndroidHeading ==> GetPlatformGuidelines(platform) == AndroidGuidelines
    ensures PlatformHeading(platform) == CrossPlatformHeading ==> GetPlatformGuidelines(platform) == CrossPlatformGuidelines
  {
    assert Fires(PlatformRules[0], platform) <==> Contains(platform, "iOS") by { assert PlatformRules[0].patterns == ["iOS"]; }
    assert Fires(PlatformRules[1], platform) <==> Contains(platform, "Android") by { assert PlatformRules[1].patterns == ["Android"]; }
    assert ChooseFrom(PlatformRules, 2, platform, CrossPlatform) == CrossPlatform;
    assert ChooseFrom(PlatformRules, 1, platform, CrossPlatform)
        == if Contains(platform, "Android") then (AndroidHeading, AndroidGuidelines) else CrossPlatform;
    assert IosHeading[0] != AndroidHeading[0] && IosHeading[0] != CrossPlatformHeading[0]
        && AndroidHeading[0] != CrossPlatformHeading[0];
  }

  // The prompt.

  const IntroOpening := "Act as an expert mobile UI/UX designer. Design a "

  const MobileRequirements :=
    "- Design for mobile viewport (375x812px for iPhone, 360x800px for Android)"
    + "\n- Ensure touch targets are minimum 44x44px for accessibility"
    + "\n- Use native platform components and patterns where appropriate"
    + "\n- Optimize for one-handed use with key actions in thumb-reach zone"
    + "\n- Include proper status bar treatment"
    + "\n- Design loading states and empty states for all screens"

  const UserExperienceLines :=
    "- Smooth transitions and animations (300-400ms timing)"
    + "\n- Clear visual feedback for all interactions"
    + "\n- Intuitive navigation with clear hierarchy"
    + "\n- Consistent spacing and typography throughout"
    + "\n- Error handling with helpful messages"
    + "\n- Offline state considerations"

  const OutputLines :=
    "Provide complete UI designs for each screen including:"
    + "\n- Screen layouts with proper safe areas"
    + "\n- Navigation structure"
    + "\n- Typography scale optimized for mobile"
    + "\n- Color palette with accessibility considerations"
    + "\n- Component states (default, active, disabled)"
    + "\n- Animation and transition specifications"
    + "\n- Platform-specific design patterns"

  function MobilePrompt(f: Fields): Prompt
  {
    Prompt(
      [IntroOpening + ToLower(f.appType) + " mobile application following " + f.platform
       + " design guidelines with a " + ToLower(f.designStyle) + " aesthetic."],
      [Section("APP SPECIFICATIONS",
         ["- App Type: " + f.appType,
          "- Platform: " + f.platform,
          "- Design Style: " + f.designStyle,
          "- Navigation Pattern: " + f.navigationPattern]),
       Section("SCREENS TO DESIGN", [BulletBlock(f.screens)]),
       Section("INTERACTIONS & GESTURES", [BulletBlock(f.interactions)]),
       Section("MOBILE-SPECIFIC REQUIREMENTS", [MobileRequirements]),
       Section(PlatformHeading(f.platform), [GetPlatformGuidelines(f.platform)]),
       Section("USER EXPERIENCE", [UserExperienceLines]),
       Section("OUTPUT", [OutputLines])])
  }

  /** `mobileAppTemplate.generate`; the tech stack is accepted and not read. */
  function Generate(config: TemplateConfig, techStack: TechStack): Result<string, PromptError>
  {
    match ReadFields(config)
    case Err(e) => Err(e)
    case Ok(f) => Ok(Render(MobilePrompt(f)))
  }

  /** The section headings for a platform: the fifth names the platform. */
  function MobileTitles(platform: string): (r: seq<string>)
    ensures |r| == 7 && r[4] == PlatformHeading(platform)
  {
    ["APP SPECIFICATIONS", "SCREENS TO DESIGN", "INTERACTIONS & GESTURES", "MOBILE-SPECIFIC REQUIREMENTS",
     PlatformHeading(platform), "USER EXPERIENCE", "OUTPUT"]
  }

  /** Generation throws exactly when a field it calls a string method on does not hold a
      string, and it ignores the tech stack. Otherwise the text holds every section heading,
      including the platform's own, one bullet per requested screen and interaction, and the
      guidelines of the platform named. */
  lemma GeneratedText(config: TemplateConfig, techStack: TechStack, otherStack: TechStack)
    ensures Generate(config, techStack).Err?
        <==> (TextField(config, "appType").None? || TextField(config, "platform").None?
              || TextField(config, "designStyle").None?)
    ensures Generate(config, techStack).Err? ==> Generate(config, techStack).error == NotAString
    ensures Generate(config, techStack) == Generate(config, otherStack)
    ensures Generate(config, techStack).Ok? ==>
              && (forall i :: 0 <= i < 7 ==> Contains(Generate(config, techStack).value,
                                                     "## " + MobileTitles(TextField(config, "platform").value)[i]))
              && (forall k :: 0 <= k < |ListField(config, "screens")| ==>
                    Contains(Generate(config, techStack).value, "- " + ListField(config, "screens")[k]))
              && (forall k :: 0 <= k < |ListField(config, "interactions")| ==>
                    Contains(Generate(config, techStack).value, "- " + ListField(config, "interactions")[k]))
              && Contains(Generate(config, techStack).value, GetPlatformGuidelines(TextField(config, "platform").value))
  {
    if Generate(config, techStack).Ok? {
      var f := ReadFields(config).value;
      var p := MobilePrompt(f);
      assert Generate(config, techStack).value == Render(p);
      MobilePromptShape(f);
      HeadingAndBodyAgree(f.platform);
      assert Titles(p.sections) == MobileTitles(f.platform);
      RenderContainsTitles(p);
      RenderContainsBullets(p, 1, 0, f.screens);
      RenderContainsBullets(p, 2, 0, f.interactions);
      RenderContainsSection(p, 4, 0);
    }
  }


  /** Section order with the platform section fifth, its heading and body from one table row;
      one bullet per screen and per interaction, in order; lower-cased app type and style. */
  lemma MobilePromptShape(f: Fields)
    ensures Titles(MobilePrompt(f).sections)
         == ["APP SPECIFICATIONS", "SCREENS TO DESIGN", "INTERACTIONS & GESTURES", "MOBILE-SPECIFIC REQUIREMENTS",
             Choose(PlatformRules, f.platform, CrossPlatform).0, "USER EXPERIENCE", "OUTPUT"]
    ensures MobilePrompt(f).sections[4].body == [Choose(PlatformRules, f.platform, CrossPlatform).1]
    ensures MobilePrompt(f).sections[1].body == [Join(Bullets(f.screens), "\n")]
    ensures MobilePrompt(f).sections[2].body == [Join(Bullets(f.interactions), "\n")]
    ensures MobilePrompt(f).intro
         == [IntroOpening + ToLower(f.appType) + " mobile application following " + f.platform
             + " design guidelines with a " + ToLower(f.designStyle) + " aesthetic."]
  {
    HeadingAndBodyAgree(f.platform);
  }
}
