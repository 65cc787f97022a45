/**
 * The theme provider: the user's preference (`light`, `dark` or `system`),
 * whether the app is dark, the palette that follows from it, and the
 * preference's persistence under the key `theme`.
 *
 * The operating system's colour scheme (`useColorScheme`) is an input: it is
 * a field that the platform changes through `SystemSchemeChanged`. React's
 * effect that recomputes `isDark` is the method `RefreshIsDark`, run after
 * any change of `theme` or of the system scheme.
 */
module ThemeContext {
  import opened Optional
  import opened Storage

  /** Storage key of the preference. */
  const ThemeKey: string := "theme"

  datatype Theme = Light | Dark | System

  /** What `useColorScheme` reports; `NoScheme` is its `null`. */
  datatype ColorScheme = SchemeLight | SchemeDark | NoScheme

  /** The string a preference is stored as. */
  function ThemeName(t: Theme): string {
    match t
    case Light => "light"
    case Dark => "dark"
    case System => "system"
  }

  /** The check applied to a stored preference: only the three names are adopted. */
  function ParseTheme(saved: Option<string>): (r: Option<Theme>)
    ensures r.Some? <==> saved.Some? && (saved.value == "light" || saved.value == "dark" || saved.value == "system")
    ensures r.Some? ==> ThemeName(r.value) == saved.value
  {
    match saved
    case Some("light") => Some(Light)
    case Some("dark") => Some(Dark)
    case Some("system") => Some(System)
    case _ => None
  }

  /** Storing a preference and checking it back gives the same preference. */
  lemma ThemeNameRoundTrip(t: Theme)
    ensures ParseTheme(Some(ThemeName(t))) == Some(t)
  {
  }

  /** Whether the app is dark: the system's choice under `system`, the preference itself otherwise. */
  function IsDarkFor(t: Theme, scheme: ColorScheme): (dark: bool)
    ensures t == System ==> (dark <==> scheme == SchemeDark)
    ensures t != System ==> (dark <==> t == Dark)
  {
    if t == System then scheme == SchemeDark else t == Dark
  }

  /**
   * The preference `toggleTheme` switches to: an explicit one, so toggling
   * flips the appearance whatever the system scheme, once `isDark` is
   * recomputed.
   */
  function ToggleTarget(isDark: bool): (t: Theme)
    ensures t != System
    ensures forall scheme :: IsDarkFor(t, scheme) == !isDark
  {
    if isDark then Light else Dark
  }

  datatype Swatch3 = Swatch3(primary: string, secondary: string, accent: string)
  datatype Border = Border(primary: string, secondary: string)
  datatype ButtonColors = ButtonColors(background: string, text: string, border: string, disabled: string)
  datatype CardColors = CardColors(background: string, shadow: string, border: string)
  datatype InputColors = InputColors(background: string, text: string, border: string, placeholder: string)
  datatype Palette = Palette(bg: Swatch3, text: Swatch3, border: Border, button: ButtonColors, card: CardColors, input: InputColors)

  const LightPalette := Palette(
    Swatch3("#E8F5E9", "#FFFFFF", "#4CAF50"),
    Swatch3("#1A3C34", "#4A4A4A", "#388E3C"),
    Border("#81C784", "#B0BEC5"),
    ButtonColors("#4CAF50", "#FFFFFF", "#388E3C", "#A5D6A7"),
    CardColors("#F1F8E9", "#C8E6C9", "#A5D6A7"),
    InputColors("#FFFFFF", "#1A3C34", "#81C784", "#90A4AE"))

  const DarkPalette := Palette(
    Swatch3("#1A3C34", "#263238", "#4CAF50"),
    Swatch3("#E8F5E9", "#B0BEC5", "#81C784"),
    Border("#4CAF50", "#455A64"),
    ButtonColors("#388E3C", "#E8F5E9", "#2E7D32", "#4A7043"),
    CardColors("#263238", "#1A3C34", "#4CAF50"),
    InputColors("#37474F", "#E8F5E9", "#4CAF50", "#78909C"))

  /** The palette in use: the dark one exactly when the app is dark, the light one otherwise. */
  function ColorsFor(isDark: bool): (p: Palette)
    ensures p == DarkPalette <==> isDark
    ensures p == LightPalette <==> !isDark
  {
    assert LightPalette.bg.primary != DarkPalette.bg.primary;
    if isDark then DarkPalette else LightPalette
  }

  class ThemeProvider {
    var theme: Theme
    var isDark: bool
    var systemScheme: ColorScheme
    /** The device's key-value store, shared with the session. */
    const store: Store

    /** `isDark` agrees with the preference and the system scheme (after the effect has run). */
    ghost predicate InSync()
      reads this
    {
      isDark == IsDarkFor(theme, systemScheme)
    }

    /** The state on mount: preference `system`, light until the effect runs. */
    constructor (store: Store, systemScheme: ColorScheme)
      ensures this.store == store && this.systemScheme == systemScheme
      ensures theme == System && !isDark
    {
      this.store := store;
      this.systemScheme := systemScheme;
      theme := System;
      isDark := false;
    }

    /** The effect on `[theme, systemColorScheme]`. */
    method RefreshIsDark()
      modifies this`isDark
      ensures InSync()
    {
      if theme == System {
        isDark := systemScheme == SchemeDark;
      } else {
        isDark := theme == Dark;
      }
    }

    /** The platform reports a new system colour scheme. */
    method SystemSchemeChanged(scheme: ColorScheme)
      modifies this`systemScheme
      ensures systemScheme == scheme
    {
      systemScheme := scheme;
    }

    /** `loadThemePreference`: a stored preference is adopted only when it is one of the three names. */
    method LoadThemePreference(readThrows: bool)
      modifies this`theme
      ensures theme == if !readThrows && ParseTheme(store.Lookup(ThemeKey)).Some?
                       then ParseTheme(store.Lookup(ThemeKey)).value else old(theme)
    {
      var read := store.GetItem(ThemeKey, readThrows);
      if read.Got? {
        var parsed := ParseTheme(read.value);
        if parsed.Some? {
          theme := parsed.value;
        }
      }
    }

    /** `changeTheme`: the preference changes at once; saving it may fail, and that failure is swallowed. */
    method ChangeTheme(t: Theme, writeThrows: bool)
      modifies this`theme, store
      ensures theme == t
      ensures store.entries == if writeThrows then old(store.entries) else old(store.entries)[ThemeKey := ThemeName(t)]
    {
      theme := t;
      var _ := store.SetItem(ThemeKey, ThemeName(t), writeThrows);
    }

    /** `toggleTheme`: switch to light when dark and to dark otherwise. */
    method ToggleTheme(writeThrows: bool)
      modifies this`theme, store
      ensures theme == ToggleTarget(old(isDark))
      ensures store.entries == if writeThrows then old(store.entries) else old(store.entries)[ThemeKey := ThemeName(theme)]
    {
      ChangeTheme(if isDark then Light else Dark, writeThrows);
    }

    /** `colors`: the palette the provider hands to screens. */
    function Colors(): (p: Palette)
      reads this
      ensures p == DarkPalette <==> isDark
    {
      ColorsFor(isDark)
    }
  }

  /** A toggle followed by the effect flips the appearance and the palette, also under the `system` preference. */
  method ToggleAndRefresh(p: ThemeProvider, writeThrows: bool)
    modifies p, p.store
    ensures p.isDark == !old(p.isDark)
    ensures p.Colors() == if old(p.isDark) then LightPalette else DarkPalette
  {
    p.ToggleTheme(writeThrows);
    p.RefreshIsDark();
  }

  /** A preference saved successfully is the one the next start of the app loads. */
  method ChangeThenRestart(p: ThemeProvider, t: Theme, scheme: ColorScheme) returns (q: ThemeProvider)
    modifies p, p.store
    ensures q.store == p.store && q.theme == t
  {
    p.ChangeTheme(t, false);
    q := new ThemeProvider(p.store, scheme);
    q.LoadThemePreference(false);
    ThemeNameRoundTrip(t);
  }
}
