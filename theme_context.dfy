/**
 * The theme provider: the user's theme preference (light, dark or auto),
 * persisted under one storage key, the dark flag derived from it and the
 * device's colour scheme, and the palette that flag selects.
 */
module ThemeContext {
  import opened Wrappers
  import opened Theme
  import opened AsyncStorage

  datatype ThemeMode = LightMode | DarkMode | AutoMode

  /** The storage key of the preference. */
  const ThemeKey: string := "theme"

  const MissingProviderMessage: string := "useTheme must be used within ThemeProvider"

  /** The string a mode is persisted as. */
  function ModeName(m: ThemeMode): (s: string)
    ensures s in {"light", "dark", "auto"}
    ensures s == "light" <==> m == LightMode
    ensures s == "dark" <==> m == DarkMode
  {
    match m
    case LightMode => "light"
    case DarkMode => "dark"
    case AutoMode => "auto"
  }

  /** The mode a stored value denotes: only the three exact literals denote one. */
  function ParseMode(saved: Option<string>): (r: Option<ThemeMode>)
    ensures r.Some? <==> saved.Some? && saved.value in {"light", "dark", "auto"}
    ensures r.Some? ==> saved == Some(ModeName(r.value))
    ensures forall m :: saved == Some(ModeName(m)) ==> r == Some(m)
  {
    match saved
    case None => None
    case Some(s) =>
      if s == "light" then Some(LightMode)
      else if s == "dark" then Some(DarkMode)
      else if s == "auto" then Some(AutoMode)
      else None
  }

  /** The dark flag: an explicit dark preference, or auto on a device in dark mode. */
  function IsDarkMode(theme: ThemeMode, system: Option<Appearance>): (dark: bool)
    ensures theme == LightMode ==> !dark
    ensures theme == DarkMode ==> dark
    ensures theme == AutoMode ==> (dark <==> system == Some(Dark))
  {
    theme == DarkMode || (theme == AutoMode && system == Some(Dark))
  }

  /** Auto behaves as dark on a dark device and as light otherwise. */
  lemma DarkModeRule(system: Option<Appearance>)
    ensures IsDarkMode(AutoMode, system) == IsDarkMode(if system == Some(Dark) then DarkMode else LightMode, system)
  {
  }

  /** The scheme passed to the module-level palette switch. */
  function AppearanceOf(isDark: bool): (a: Appearance)
    ensures a == Dark <==> isDark
  {
    if isDark then Dark else Light
  }

  /** The palette the context exposes. */
  function ContextColors(isDark: bool): (c: Palette)
    ensures c == PaletteFor(AppearanceOf(isDark))
  {
    if isDark then DarkColors else LightColors
  }

  /** The context exposes the dark palette exactly when the dark flag is set. */
  lemma ContextColorsSelect(isDark: bool)
    ensures ContextColors(isDark) == DarkColors <==> isDark
    ensures ContextColors(isDark) == LightColors <==> !isDark
  {
    PalettesDiffer();
  }

  /**
   * The mode after a load finishes, given the mode before it and what the
   * storage read gave.
   */
  function LoadOutcome(current: ThemeMode, read: Result<Option<string>, StorageError>): (r: ThemeMode)
    ensures read.Failure? ==> r == current
    ensures r != current ==> read == Success(Some(ModeName(r)))
    ensures forall m :: read == Success(Some(ModeName(m))) ==> r == m
  {
    match read
    case Failure(_) => current
    case Success(saved) =>
      match ParseMode(saved)
      case Some(m) => m
      case None => current
  }

  /** An absent preference or an unknown string such as "purple" is ignored. */
  lemma InvalidPreferenceIgnored(current: ThemeMode, other: string)
    requires other !in {"light", "dark", "auto"}
    ensures LoadOutcome(current, Success(None)) == current
    ensures LoadOutcome(current, Success(Some(other))) == current
    ensures LoadOutcome(current, Success(Some("purple"))) == current
  {
    assert ParseMode(Some("purple")) == None;
  }

  /** What the provider hands to its consumers. */
  datatype ThemeContextValue = ThemeContextValue(theme: ThemeMode, isDark: bool, colors: Palette)

  /** `useTheme`: the provider's value, or an error outside any provider. */
  function UseTheme(context: Option<ThemeContextValue>): (r: Result<ThemeContextValue, string>)
    ensures context.None? <==> r == Failure(MissingProviderMessage)
    ensures context.Some? ==> r == Success(context.value)
  {
    match context
    case None => Failure(MissingProviderMessage)
    case Some(v) => Success(v)
  }

  class ThemeProvider {
    const store: Storage
    /** The module-level palette of the theme constants module. */
    const appTheme: ThemeModule
    /** The device colour scheme; `None` when the device reports none. */
    var system: Option<Appearance>
    var theme: ThemeMode
    var isDark: bool

    /** Once effects have run: the dark flag and the global palette follow the mode. */
    ghost predicate Valid()
      reads this, appTheme
    {
      && isDark == IsDarkMode(theme, system)
      && appTheme.colors == ContextColors(isDark)
    }

    function Colors(): (c: Palette)
      reads this
      ensures c == DarkColors <==> isDark
      ensures c == LightColors <==> !isDark
    {
      ContextColorsSelect(isDark);
      ContextColors(isDark)
    }

    /** What consumers see: the dark flag agrees with the mode, and the palette with the flag. */
    function Value(): (v: ThemeContextValue)
      reads this, appTheme
      requires Valid()
      ensures v.theme == theme && v.isDark == isDark
      ensures v.isDark == IsDarkMode(v.theme, system)
      ensures v.colors == DarkColors <==> v.isDark
      ensures v.colors == LightColors <==> !v.isDark
    {
      ThemeContextValue(theme, isDark, Colors())
    }

    /** Mounting: mode light, not dark, then the appearance effect runs once. */
    constructor (store: Storage, appTheme: ThemeModule, system: Option<Appearance>)
      modifies appTheme
      ensures this.store == store && this.appTheme == appTheme && this.system == system
      ensures theme == LightMode && !isDark
      ensures Valid() && appTheme.colors == LightColors
    {
      this.store := store;
      this.appTheme := appTheme;
      this.system := system;
      theme := LightMode;
      isDark := false;
      new;
      appTheme.SetTheme(AppearanceOf(isDark));
    }

    /** The effect that recomputes the dark flag and switches the global palette. */
    method SyncAppearance()
      modifies this`isDark, appTheme
      ensures Valid()
      ensures isDark == IsDarkMode(theme, system)
    {
      isDark := IsDarkMode(theme, system);
      appTheme.SetTheme(AppearanceOf(isDark));
    }

    /** `loadTheme`: adopt a valid stored mode; a failed read changes nothing. */
    method LoadTheme(readFails: bool)
      requires Valid()
      modifies this`theme, this`isDark, appTheme
      ensures Valid()
      ensures theme == LoadOutcome(old(theme),
        if readFails then Failure(StorageError) else Success(Lookup(store.entries, ThemeKey)))
      ensures readFails ==> theme == old(theme) && isDark == old(isDark)
    {
      var saved := store.GetItem(ThemeKey, readFails);
      if saved.Success? {
        var m := ParseMode(saved.value);
        if m.Some? {
          theme := m.value;
        }
      }
      SyncAppearance();
    }

    /** `setTheme`: write storage first, and adopt the mode only if the write succeeded. */
    method SetTheme(newTheme: ThemeMode, writeFails: bool)
      requires Valid()
      modifies this`theme, this`isDark, appTheme, store
      ensures Valid()
      ensures theme == if writeFails then old(theme) else newTheme
      ensures store.entries == if writeFails then old(store.entries)
                               else old(store.entries)[ThemeKey := ModeName(newTheme)]
      ensures writeFails ==> isDark == old(isDark)
    {
      var ok := store.SetItem(ThemeKey, ModeName(newTheme), writeFails);
      if ok {
        theme := newTheme;
      }
      SyncAppearance();
    }

    /** The device switches scheme; the appearance effect runs again. */
    method SystemSchemeChanged(s: Option<Appearance>)
      requires Valid()
      modifies this`system, this`isDark, appTheme
      ensures Valid()
      ensures system == s && theme == old(theme)
    {
      system := s;
      SyncAppearance();
    }
  }

  /**
   * Saving a mode and restarting: a new provider over the same storage ends
   * with the saved mode once it has loaded, whatever the storage held before.
   */
  method SaveThenRestart(m: ThemeMode, system: Option<Appearance>, initial: map<string, string>)
    returns (restored: ThemeMode, colors: Palette)
    ensures restored == m
    ensures colors == ContextColors(IsDarkMode(m, system))
  {
    var store := new Storage(initial);
    var appTheme := new ThemeModule();
    var first := new ThemeProvider(store, appTheme, system);
    first.SetTheme(m, false);
    var second := new ThemeProvider(store, appTheme, system);
    second.LoadTheme(false);
    restored := second.theme;
    colors := appTheme.GetColors();
  }

  /** A failed save followed by a restart leaves the provider at its default. */
  method FailedSaveThenRestart(m: ThemeMode, system: Option<Appearance>) returns (restored: ThemeMode)
    ensures restored == LightMode
  {
    var store := new Storage(map[]);
    var appTheme := new ThemeModule();
    var first := new ThemeProvider(store, appTheme, system);
    first.SetTheme(m, true);
    var second := new ThemeProvider(store, appTheme, system);
    second.LoadTheme(false);
    restored := second.theme;
  }
}
