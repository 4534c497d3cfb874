/** The theme toggle: which setting a click requests, and how the control looks for the
    current raw setting. Every choice the control makes tests only `theme === "dark"`. */
module ThemeToggle {

  /** The raw setting the theme provider hands out. */
  datatype ThemeSetting = Light | Dark | System

  predicate IsDark(t: ThemeSetting) {
    t == Dark
  }

  /** `onClick`: `setTheme(theme === "dark" ? "light" : "dark")`. */
  function NextTheme(t: ThemeSetting): (r: ThemeSetting)
    ensures r != System
    ensures r == Light <==> IsDark(t)
  {
    if IsDark(t) then Light else Dark
  }

  datatype Icon = Sun | Moon

  /** The control as drawn: whether the track is dark, the icon in the filled knob (the
      first slot) and the icon in the bare second slot. Where the slots slide to is
      styling and is not part of the model. */
  datatype Look = Look(darkTrack: bool, knob: Icon, spare: Icon)

  function Appearance(t: ThemeSetting): (v: Look)
    ensures v.darkTrack <==> IsDark(t)
    ensures v.knob != v.spare
    ensures v.knob == Moon <==> IsDark(t)
  {
    if IsDark(t) then Look(true, Moon, Sun) else Look(false, Sun, Moon)
  }

  // ---------------------------------------------------------------------------
  // Properties

  /** Clicking never requests "system", and from "system" it requests "dark". */
  lemma NeverRequestsSystem(t: ThemeSetting)
    ensures NextTheme(t) != System
    ensures t != Dark ==> NextTheme(t) == Dark
  {
  }

  /** Two clicks return to a light or dark setting; from "system" they end on "light". */
  lemma TwoClicks(t: ThemeSetting)
    ensures t != System ==> NextTheme(NextTheme(t)) == t
    ensures t == System ==> NextTheme(NextTheme(t)) == Light
  {
  }

  /** The look depends only on whether the raw setting is "dark": "system" is drawn
      exactly like "light", whatever the environment prefers. */
  lemma AppearanceOnlyDependsOnDark(t: ThemeSetting, u: ThemeSetting)
    ensures Appearance(t) == Appearance(u) <==> IsDark(t) == IsDark(u)
    ensures Appearance(System) == Appearance(Light)
  {
  }

  /** After a click the knob shows the icon of the setting it requested: the moon for
      "dark" and the sun for "light". */
  lemma KnobShowsRequestedTheme(t: ThemeSetting)
    ensures Appearance(NextTheme(t)).knob == (if NextTheme(t) == Dark then Moon else Sun)
    ensures Appearance(NextTheme(t)).knob == Appearance(t).spare
  {
  }

  /** Every click changes what the control shows, "system" included. */
  lemma ClickChangesLook(t: ThemeSetting)
    ensures Appearance(NextTheme(t)) != Appearance(t)
  {
  }
}
