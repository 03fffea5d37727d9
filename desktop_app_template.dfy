/** src/templates/desktopApp/desktopAppTemplate.ts: the desktop-application prompt and its
    platform-specific guideline block. */
module DesktopAppTemplate {
  import opened Wrappers
  import opened Strings
  import opened Selection
  import opened Types
  import opened Prompts

  /** The configuration fields the template destructures. `appType`, `platform`, `complexity`
      and `theme` have string methods called on them. */
  datatype Fields = Fields(
    appType: string,
    platform: string,
    complexity: string,
    theme: string,
    layoutStyle: string,
    features: seq<string>)

  function ReadFields(config: TemplateConfig): (r: Result<Fields, PromptError>)
    ensures r.Ok? <==> TextField(config, "appType").Some? && TextField(config, "platform").Some?
                       && TextField(config, "complexity").Some? && TextField(config, "theme").Some?
    ensures r.Err? ==> r.error == NotAString
    ensures r.Ok? ==> r.value.appType == TextField(config, "appType").value
                      && r.value.platform == TextField(config, "platform").value
                      && r.value.complexity == TextField(config, "complexity").value
                      && r.value.theme == TextField(config, "theme").value
                      && r.value.features == ListField(config, "features")
  {
    match (TextField(config, "appType"), TextField(config, "platform"),
           TextField(config, "complexity"), TextField(config, "theme"))
    case (Some(appType), Some(platform), Some(complexity), Some(theme)) =>
      Ok(Fields(appType, platform, complexity, theme, Interpolate(config, "layoutStyle"), ListField(config, "features")))
    case _ => Err(NotAString)
  }

  // Platform blocks.

  const MacOsSpecifics :=
    "- Follow macOS Human Interface Guidelines"
    + "\n- Use SF Pro font family"
    + "\n- Traffic light window controls (red, yellow, green) on left"
    + "\n- Unified title bar and toolbar"
    + "\n- macOS-style preferences window"
    + "\n- Native menu bar integration"

  const WindowsSpecifics :=
    "- Follow Microsoft Fluent Design System"
    + "\n- Use Segoe UI font family"
    + "\n- Window controls (minimize, maximize, close) on right"
    + "\n- Ribbon or command bar interface options"
    + "\n- Windows-style settings panel"
    + "\n- System tray integration"

  const LinuxSpecifics :=
    "- Follow GNOME or KDE Human Interface Guidelines"
    + "\n- Use system font (Ubuntu, Roboto, etc.)"
    + "\n- Flexible window controls positioning"
    + "\n- GTK+ or Qt component styling"
    + "\n- Native desktop environment integration"

  const ElectronSpecifics :=
    "- Create platform-agnostic design using Electron"
    + "\n- Custom title bar with cross-platform window controls"
    + "\n- Consistent experience across macOS, Windows, and Linux"
    + "\n- Use web-safe fonts or bundled fonts"
    + "\n- Electron-specific optimizations (frameless window, etc.)"

  /** `macOS` over `Windows` over `Linux`; anything else gets the Electron block. */
  const PlatformRules: seq<Rule<string>> := [
    Rule(["macOS"], MacOsSpecifics),
    Rule(["Windows"], WindowsSpecifics),
    Rule(["Linux"], LinuxSpecifics)]

  /** `getPlatformSpecifics`. */
  function GetPlatformSpecifics(platform: string): string
  {
    if Contains(platform, "macOS") then MacOsSpecifics
    else if Contains(platform, "Windows") then WindowsSpecifics
    else if Contains(platform, "Linux") then LinuxSpecifics
    else ElectronSpecifics
  }

  /** The branches are the platform table read top to bottom, with Electron as fallback. */
  lemma PlatformSpecificsIsFirstMatch(platform: string)
    ensures GetPlatformSpecifics(platform) == Choose(PlatformRules, platform, ElectronSpecifics)
  {
    assert Fires(PlatformRules[0], platform) <==> Contains(platform, "macOS") by { assert PlatformRules[0].patterns == ["macOS"]; }
    assert Fires(PlatformRules[1], platform) <==> Contains(platform, "Windows") by { assert PlatformRules[1].patterns == ["Windows"]; }
    assert Fires(PlatformRules[2], platform) <==> Contains(platform, "Linux") by { assert PlatformRules[2].patterns == ["Linux"]; }
    assert ChooseFrom(PlatformRules, 3, platform, ElectronSpecifics) == ElectronSpecifics;
    assert ChooseFrom(PlatformRules, 2, platform, ElectronSpecifics)
        == if Contains(platform, "Linux") then LinuxSpecifics else ElectronSpecifics;
    assert ChooseFrom(PlatformRules, 1, platform, ElectronSpecifics)
        == if Contains(platform, "Windows") then WindowsSpecifics else ChooseFrom(PlatformRules, 2, platform, ElectronSpecifics);
  }

  /** The Electron block is chosen exactly when no named platform occurs in the string. */
  lemma ElectronFallback(platform: string)
    ensures (FirstFiring(PlatformRules, platform) == |PlatformRules|)
        <==> !Contains(platform, "macOS") && !Contains(platform, "Windows") && !Contains(platform, "Linux")
    ensures !Contains(platform, "macOS") && !Contains(platform, "Windows") && !Contains(platform, "Linux")
        ==> GetPlatformSpecifics(platform) == ElectronSpecifics
  {
    ChooseIsFirstFiring(PlatformRules, platform, ElectronSpecifics);
    assert Fires(PlatformRules[0], platform) <==> Contains(platform, "macOS") by { assert PlatformRules[0].patterns == ["macOS"]; }
    assert Fires(PlatformRules[1], platform) <==> Contains(platform, "Windows") by { assert PlatformRules[1].patterns == ["Windows"]; }
    assert Fires(PlatformRules[2], platform) <==> Contains(platform, "Linux") by { assert PlatformRules[2].patterns == ["Linux"]; }
  }

  /** Any platform naming macOS gets the macOS block, whatever else it names. */
  lemma MacOsWins(platform: string)
    requires Contains(platform, "macOS")
    ensures GetPlatformSpecifics(platform) == MacOsSpecifics
  {
  }

  // The prompt.

  const IntroOpening := "Act as an expert desktop application UI/UX designer. Design a "

  const DesktopRequirements :=
    "- Design for desktop viewport (minimum 1280x720px, optimal 1920x1080px)"
    + "\n- Native window controls (minimize, maximize, close)"
    + "\n- Title bar with app name and document indicator"
    + "\n- Keyboard-first interaction with comprehensive shortcuts"
    + "\n- Context menus for right-click actions"
    + "\n- Resizable panels and windows with saved layout states"
    + "\n- Multi-monitor support considerations"

  const UserExperienceLines :=
    "- Efficient workspace utilization with customizable layouts"
    + "\n- Quick access to frequently used tools and features"
    + "\n- Visual hierarchy optimized for prolonged desktop use"
    + "\n- Consistent with platform conventions for menus and dialogs"
    + "\n- Professional color scheme suitable for extended viewing"
    + "\n- Crisp, readable typography at standard desktop viewing distances"

  const InteractionLines :=
    "- Keyboard shortcuts for all major actions"
    + "\n- Drag-and-drop where applicable"
    + "\n- Hover states and tooltips for discoverability"
    + "\n- Undo/redo functionality"
    + "\n- Auto-save and state persistence"
    + "\n- Window management (split views, tabs, etc.)"

  const OutputOpening :=
    "Provide complete desktop UI design including:"
    + "\n- Overall window layout and structure"
    + "\n- Menu bar structure and organization"
    + "\n- Toolbar design with icon set"
    + "\n- Main work area layout"
    + "\n- Sidebar/panel designs"

  const OutputClosing :=
    "- Keyboard shortcut mapping"
    + "\n- Settings/preferences interface"

  function DesktopPrompt(f: Fields): Prompt
  {
    Prompt(
      [IntroOpening + ToLower(f.appType) + " for " + f.platform + " with " + ToLower(f.complexity) + " interface complexity."],
      [Section("APPLICATION SPECIFICATIONS",
         ["- App Type: " + f.appType,
          "- Target Platform: " + f.platform,
          "- Layout Style: " + f.layoutStyle,
          "- Theme: " + f.theme,
          "- Complexity Level: " + f.complexity]),
       Section("INTERFACE COMPONENTS", [BulletBlock(f.features)]),
       Section("DESKTOP-SPECIFIC REQUIREMENTS", [DesktopRequirements]),
       Section("PLATFORM GUIDELINES", [GetPlatformSpecifics(f.platform)]),
       Section("USER EXPERIENCE", [UserExperienceLines]),
       Section("INTERACTION PATTERNS", [InteractionLines]),
       Section("OUTPUT",
         [OutputOpening,
          "- Typography and color scheme for " + ToLower(f.theme) + " theme",
          OutputClosing])])
  }

  /** `desktopAppTemplate.generate`; the tech stack is accepted and not read. */
  function Generate(config: TemplateConfig, techStack: TechStack): Result<string, PromptError>
  {
    match ReadFields(config)
    case Err(e) => Err(e)
    case Ok(f) => Ok(Render(DesktopPrompt(f)))
  }

  const DesktopTitles := ["APPLICATION SPECIFICATIONS", "INTERFACE COMPONENTS", "DESKTOP-SPECIFIC REQUIREMENTS",
                          "PLATFORM GUIDELINES", "USER EXPERIENCE", "INTERACTION PATTERNS", "OUTPUT"]

  /** Generation throws exactly when a field it calls a string method on does not hold a
      string, and it ignores the tech stack. Otherwise the text holds every section heading,
      one bullet per requested feature, and the guidance block of the platform named. */
  lemma GeneratedText(config: TemplateConfig, techStack: TechStack, otherStack: TechStack)
    ensures Generate(config, techStack).Err?
        <==> (TextField(config, "appType").None? || TextField(config, "platform").None?
              || TextField(config, "complexity").None? || TextField(config, "theme").None?)
    ensures Generate(config, techStack).Err? ==> Generate(config, techStack).error == NotAString
    ensures Generate(config, techStack) == Generate(config, otherStack)
    ensures Generate(config, techStack).Ok? ==>
              && (forall i :: 0 <= i < |DesktopTitles| ==> Contains(Generate(config, techStack).value, "## " + DesktopTitles[i]))
              && (forall k :: 0 <= k < |ListField(config, "features")| ==>
                    Contains(Generate(config, techStack).value, "- " + ListField(config, "features")[k]))
              && Contains(Generate(config, techStack).value, GetPlatformSpecifics(TextField(config, "platform").value))
  {
    if Generate(config, techStack).Ok? {
      var f := ReadFields(config).value;
      var p := DesktopPrompt(f);
      assert Generate(config, techStack).value == Render(p);
      DesktopPromptShape(f);
      PlatformSpecificsIsFirstMatch(f.platform);
      RenderContainsTitles(p);
      RenderContainsBullets(p, 1, 0, f.features);
      RenderContainsSection(p, 3, 0);
    }
  }


  /** Section order, one bullet per feature in order, the platform block in its section, and
      the lower-cased app type, complexity and theme. */
  lemma DesktopPromptShape(f: Fields)
    ensures Titles(DesktopPrompt(f).sections)
         == ["APPLICATION SPECIFICATIONS", "INTERFACE COMPONENTS", "DESKTOP-SPECIFIC REQUIREMENTS",
             "PLATFORM GUIDELINES", "USER EXPERIENCE", "INTERACTION PATTERNS", "OUTPUT"]
    ensures DesktopPrompt(f).sections[1].body == [Join(Bullets(f.features), "\n")]
    ensures DesktopPrompt(f).sections[3].body == [Choose(PlatformRules, f.platform, ElectronSpecifics)]
    ensures DesktopPrompt(f).intro
         == [IntroOpening + ToLower(f.appType) + " for " + f.platform + " with " + ToLower(f.complexity) + " interface complexity."]
    ensures DesktopPrompt(f).sections[6].body[1] == "- Typography and color scheme for " + ToLower(f.theme) + " theme"
  {
    PlatformSpecificsIsFirstMatch(f.platform);
  }
}
