/** The theme provider's mode resolution and its context guard. */
module Theme {
  import opened Wrappers

  /** The user's preference: follow the system, or force a scheme. */
  datatype ThemeMode = System | Light | Dark

  type ResolvedThemeMode = m: ThemeMode | m != System witness Light

  /** What the system reports; `NoScheme` is null or undefined. */
  datatype ColorScheme = SchemeLight | SchemeDark | NoScheme

  /** `resolveThemeMode`. */
  function ResolveThemeMode(mode: ThemeMode, systemScheme: ColorScheme): (r: ResolvedThemeMode)
    ensures mode != System ==> r == mode
    ensures mode == System ==> (r == Dark <==> systemScheme == SchemeDark)
  {
    if mode == System then (if systemScheme == SchemeDark then Dark else Light) else mode
  }

  /** Resolving a resolved mode again changes nothing, whatever the system
      now reports. */
  lemma ResolveIsIdempotent(mode: ThemeMode, s1: ColorScheme, s2: ColorScheme)
    ensures ResolveThemeMode(ResolveThemeMode(mode, s1), s2) == ResolveThemeMode(mode, s1)
  {
  }

  /** The context value without the palette and the setter. */
  datatype ThemeContextValue = ThemeContextValue(themeMode: ThemeMode, resolvedMode: ResolvedThemeMode, isDark: bool)

  /** The value a provider publishes. */
  function ProviderValue(mode: ThemeMode, systemScheme: ColorScheme): (v: ThemeContextValue)
    ensures v.themeMode == mode && v.resolvedMode == ResolveThemeMode(mode, systemScheme)
    ensures v.isDark <==> v.resolvedMode == Dark
  {
    var resolved := ResolveThemeMode(mode, systemScheme);
    ThemeContextValue(mode, resolved, resolved == Dark)
  }

  /** Dark is shown exactly when it is forced, or followed from a dark system. */
  lemma IsDarkExactly(mode: ThemeMode, systemScheme: ColorScheme)
    ensures ProviderValue(mode, systemScheme).isDark <==> mode == Dark || (mode == System && systemScheme == SchemeDark)
  {
  }

  const OutsideProvider: string := "useTheme must be used inside ThemeProvider"

  /** `useTheme`: the nearest provider's value, or the error it throws
      when there is none. */
  function UseTheme(context: Option<ThemeContextValue>): (r: Result<ThemeContextValue, string>)
    ensures context.None? <==> r.Failure?
    ensures r.Failure? ==> r.error == OutsideProvider
    ensures context.Some? ==> r == Success(context.value)
  {
    match context
    case None => Failure(OutsideProvider)
    case Some(v) => Success(v)
  }
}
