/** The light/dark theme: chosen at start from the saved name or the system scheme, and persisted. */
module Themes {
  import opened Wrappers
  import KeyValue

  const THEME_KEY := "appTheme"

  datatype Theme = Light | Dark

  /** What useColorScheme reports; it may report no preference. */
  datatype ColorScheme = SchemeLight | SchemeDark | NoPreference

  /** The name a theme is saved under. */
  function Name(t: Theme): string {
    match t
    case Light => "light"
    case Dark => "dark"
  }

  /** The theme before the saved one has been loaded. */
  const INITIAL_THEME := Dark

  /** loadTheme: the saved name is adopted iff it names a theme; otherwise the system scheme decides. */
  function Chosen(saved: Option<string>, system: ColorScheme): (r: Theme)
    ensures saved == Some("light") ==> r == Light
    ensures saved == Some("dark") ==> r == Dark
    ensures saved != Some("light") && saved != Some("dark") ==> (r == Dark <==> system == SchemeDark)
  {
    if saved == Some("light") then Light
    else if saved == Some("dark") then Dark
    else if system == SchemeDark then Dark
    else Light
  }

  /** toggleTheme's choice. */
  function Flipped(t: Theme): (r: Theme)
    ensures r != t
  {
    if t == Light then Dark else Light
  }

  lemma FlipTwice(t: Theme)
    ensures Flipped(Flipped(t)) == t
  {
  }

  /** A saved theme is adopted by the next load, whatever the system scheme says. */
  lemma SavedThemeReloaded(t: Theme, system: ColorScheme)
    ensures Chosen(Some(Name(t)), system) == t
  {
  }

  /** Only the two exact names are recognised: any other saved text leaves the choice to the system. */
  lemma UnknownNameIgnored(saved: string, system: ColorScheme)
    requires saved != Name(Light) && saved != Name(Dark)
    ensures Chosen(Some(saved), system) == Chosen(None, system)
  {
  }

  datatype Palette = Palette(text: string, background: string, tint: string, tabIconDefault: string,
                             tabIconSelected: string, card: string, border: string, muted: string,
                             button: string, buttonText: string)

  const TINT := "#FF6B35"

  const LIGHT_COLORS := Palette("#1F2937", "#F9FAFB", TINT, "#6B7280", TINT, "#FFFFFF", "#E5E7EB",
                                "#6B7280", "#F3F4F6", "#1F2937")

  const DARK_COLORS := Palette("#F9FAFB", "#111827", TINT, "#9CA3AF", TINT, "#1F2937", "#374151",
                               "#9CA3AF", "#374151", "#F9FAFB")

  /** `Colors[theme]`. */
  function ColorsOf(t: Theme): (r: Palette)
    ensures r.tint == TINT && r.tabIconSelected == TINT
    ensures t == Dark ==> r.background == "#111827" && r.text == "#F9FAFB"
    ensures t == Light ==> r.background == "#F9FAFB" && r.text == "#1F2937"
  {
    if t == Light then LIGHT_COLORS else DARK_COLORS
  }

  /**
   * Each palette's text differs from its own background, and the dark palette writes its text
   * in the light palette's background colour.
   */
  lemma PalettesContrast(t: Theme)
    ensures ColorsOf(t).text != ColorsOf(t).background
    ensures ColorsOf(Dark).text == ColorsOf(Light).background
  {
  }

  /** The theme provider; the theme name is stored in plain text in the shared key-value store. */
  class ThemeController {
    var theme: Theme
    var isLoaded: bool
    const disk: KeyValue.KvStore

    constructor (disk: KeyValue.KvStore)
      ensures this.disk == disk && theme == INITIAL_THEME && !isLoaded
    {
      this.disk := disk;
      theme, isLoaded := INITIAL_THEME, false;
    }

    /**
     * `readOk` false: the read rejected, the theme is kept, and loading still finishes. A missing
     * entry reads as null.
     */
    method LoadTheme(system: ColorScheme, readOk: bool)
      modifies this
      ensures isLoaded
      ensures !readOk ==> theme == old(theme)
      ensures readOk && THEME_KEY in disk.entries ==> theme == Chosen(Some(disk.entries[THEME_KEY]), system)
      ensures readOk && THEME_KEY !in disk.entries ==> theme == Chosen(None, system)
    {
      if readOk {
        var saved := if THEME_KEY in disk.entries then Some(disk.entries[THEME_KEY]) else None;
        theme := Chosen(saved, system);
      }
      isLoaded := true;
    }

    /** The state changes first; a failed save is swallowed and does not revert it. */
    method SetTheme(newTheme: Theme, writeOk: bool)
      modifies this, disk
      ensures theme == newTheme && isLoaded == old(isLoaded)
      ensures disk.entries == if writeOk then old(disk.entries)[THEME_KEY := Name(newTheme)] else old(disk.entries)
    {
      theme := newTheme;
      if writeOk {
        disk.entries := disk.entries[THEME_KEY := Name(newTheme)];
      }
    }

    method ToggleTheme(writeOk: bool)
      modifies this, disk
      ensures theme == Flipped(old(theme)) && isLoaded == old(isLoaded)
      ensures IsDark() == !old(IsDark()) && Colors() != old(Colors())
      ensures disk.entries == if writeOk then old(disk.entries)[THEME_KEY := Name(theme)] else old(disk.entries)
    {
      SetTheme(Flipped(theme), writeOk);
    }

    /** `isDark`: true exactly when the dark palette is the one in use. */
    function IsDark(): (r: bool)
      reads this
      ensures r <==> ColorsOf(theme) == DARK_COLORS
      ensures r <==> ColorsOf(theme).background == DARK_COLORS.background
    {
      theme == Dark
    }

    function Colors(): (r: Palette)
      reads this
      ensures r == if IsDark() then DARK_COLORS else LIGHT_COLORS
    {
      ColorsOf(theme)
    }
  }

  /** A theme set and saved is the one the next start loads. */
  method SetThenReload(disk: KeyValue.KvStore, t: Theme, system: ColorScheme) returns (loaded: Theme)
    modifies disk
    ensures loaded == t
  {
    var first := new ThemeController(disk);
    first.SetTheme(t, true);
    var second := new ThemeController(disk);
    second.LoadTheme(system, true);
    SavedThemeReloaded(t, system);
    loaded := second.theme;
  }
}
