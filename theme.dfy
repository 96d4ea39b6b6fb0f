/** The `theme` slice (`src/store/slices/themeSlice.ts`): a chosen mode (light, dark
    or following the system), the system's scheme, and the derived `isDark` flag that
    every reducer recomputes. */
module ThemeSlice {
  import opened Wrappers

  datatype ThemeMode = Light | Dark | Auto
  datatype Scheme = LightScheme | DarkScheme

  datatype ThemeFields = ThemeFields(mode: ThemeMode, isDark: bool, systemTheme: Scheme)

  datatype ThemeAction = SetThemeMode(mode: ThemeMode) | SetSystemTheme(scheme: Scheme) | ToggleTheme | ResetTheme

  /** `shouldUseDarkTheme`. */
  function ShouldUseDark(mode: ThemeMode, system: Scheme): (dark: bool)
    ensures mode == Dark ==> dark
    ensures mode == Light ==> !dark
    ensures mode == Auto ==> (dark <==> system == DarkScheme)
  {
    match mode
    case Dark => true
    case Light => false
    case Auto => system == DarkScheme
  }

  /** The flag agrees with the mode and the system scheme. */
  predicate Consistent(s: ThemeFields) {
    s.isDark == ShouldUseDark(s.mode, s.systemTheme)
  }

  /** The initial state from the device's reported scheme, which may be unknown. */
  function Initial(reported: Option<Scheme>): (s: ThemeFields)
    ensures s.mode == Auto && Consistent(s)
    ensures s.systemTheme == reported.GetOr(LightScheme)
  {
    ThemeFields(Auto, reported == Some(DarkScheme), reported.GetOr(LightScheme))
  }

  /** The mode `toggleTheme` switches to. */
  function Toggled(mode: ThemeMode, system: Scheme): ThemeMode {
    if mode == Auto then (if system == DarkScheme then Light else Dark)
    else if mode == Dark then Light else Dark
  }

  /** The reducer. Every case recomputes the flag, so it is consistent whatever state
      the case starts from; only `setSystemTheme` changes the system scheme. */
  function Reduce(s: ThemeFields, a: ThemeAction): (r: ThemeFields)
    ensures Consistent(r)
    ensures r.systemTheme != s.systemTheme ==> a.SetSystemTheme?
  {
    match a
    case SetThemeMode(m) => s.(mode := m, isDark := ShouldUseDark(m, s.systemTheme))
    case SetSystemTheme(t) => s.(systemTheme := t, isDark := ShouldUseDark(s.mode, t))
    case ToggleTheme =>
      var m := Toggled(s.mode, s.systemTheme);
      s.(mode := m, isDark := ShouldUseDark(m, s.systemTheme))
    case ResetTheme => s.(mode := Auto, isDark := ShouldUseDark(Auto, s.systemTheme))
  }

  /** `toggleTheme` never lands on auto and, from a consistent state, always flips the flag. */
  lemma ToggleFlips(s: ThemeFields)
    requires Consistent(s)
    ensures Reduce(s, ToggleTheme).mode != Auto
    ensures Reduce(s, ToggleTheme).isDark == !s.isDark
  {
  }

  /** Two toggles from a manual mode give that mode, and the whole state, back. */
  lemma ToggleTwice(s: ThemeFields)
    requires s.mode != Auto && Consistent(s)
    ensures Reduce(Reduce(s, ToggleTheme), ToggleTheme) == s
  {
  }

  /** From auto, two toggles leave a manual mode that matches the system scheme. */
  lemma ToggleTwiceFromAuto(s: ThemeFields)
    requires s.mode == Auto && Consistent(s)
    ensures var t := Reduce(Reduce(s, ToggleTheme), ToggleTheme);
            t.mode != Auto && t.isDark == s.isDark && t.systemTheme == s.systemTheme
  {
  }

  /** A system change never changes the mode, and in a manual mode not the flag either. */
  lemma SystemChangeKeepsManual(s: ThemeFields, t: Scheme)
    requires Consistent(s)
    ensures Reduce(s, SetSystemTheme(t)).mode == s.mode
    ensures s.mode != Auto ==> Reduce(s, SetSystemTheme(t)) == s.(systemTheme := t)
  {
  }

  /** `resetTheme` follows the system again. */
  lemma ResetFollowsSystem(s: ThemeFields)
    ensures Reduce(s, ResetTheme) == s.(mode := Auto, isDark := s.systemTheme == DarkScheme)
  {
  }

  class ThemeState {
    var mode: ThemeMode
    var isDark: bool
    var systemTheme: Scheme

    function Fields(): ThemeFields
      reads this
    {
      ThemeFields(mode, isDark, systemTheme)
    }

    constructor (reported: Option<Scheme>)
      ensures Fields() == Initial(reported)
    {
      mode := Auto;
      isDark := reported == Some(DarkScheme);
      systemTheme := if reported.Some? then reported.value else LightScheme;
    }

    method Apply(a: ThemeAction)
      modifies this
      ensures Fields() == Reduce(old(Fields()), a)
      ensures Consistent(Fields())
    {
      match a
      case SetThemeMode(m) =>
        mode := m;
        isDark := ShouldUseDark(m, systemTheme);
      case SetSystemTheme(t) =>
        systemTheme := t;
        isDark := ShouldUseDark(mode, t);
      case ToggleTheme =>
        if mode == Auto {
          mode := if systemTheme == DarkScheme then Light else Dark;
        } else {
          mode := if mode == Dark then Light else Dark;
        }
        isDark := ShouldUseDark(mode, systemTheme);
      case ResetTheme =>
        mode := Auto;
        isDark := ShouldUseDark(Auto, systemTheme);
    }
  }
}
