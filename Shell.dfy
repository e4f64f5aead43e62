/** The application shell: the time-of-day greeting, the dark-mode rule and
    its toggle, and the category tabs over the feature catalogue. The clock
    hour, the stored theme and the system preference are parameters. */
module Shell {
  import opened Common

  datatype Category = Wellness | Interactive | Content | Support

  datatype Feature = Feature(id: string, name: string, category: Category)

  const Features: seq<Feature> := [
    Feature("chat", "AI Companion", Support),
    Feature("journal", "Digital Journal", Wellness),
    Feature("breathing", "Breathing Exercises", Wellness),
    Feature("sounds", "Calming Sounds", Wellness),
    Feature("games", "Wellness Games", Interactive),
    Feature("assessment", "Mental Health Check", Wellness),
    Feature("therapist", "Therapist Connect", Support),
    Feature("translation", "Translation", Support),
    Feature("books", "Wellness Library", Content),
    Feature("motivation", "Daily Inspiration", Content),
    Feature("environment", "Calm Environments", Interactive)
  ]

  /** The four category tabs, in display order. */
  const Tabs: seq<Category> := [Wellness, Interactive, Content, Support]

  /** `getGreeting`: the three bands of the day split at 12:00 and 17:00. */
  function Greeting(hour: int): (g: string)
    ensures g == "Good morning" <==> hour < 12
    ensures g == "Good afternoon" <==> 12 <= hour < 17
    ensures g == "Good evening" <==> 17 <= hour
  {
    if hour < 12 then "Good morning"
    else if hour < 17 then "Good afternoon"
    else "Good evening"
  }

  /** The stored theme string is falsy when absent or empty. */
  predicate NothingSaved(saved: Option<string>) {
    saved.None? || saved.value == ""
  }

  /** The initial dark-mode rule: the saved theme wins; without one the
      system preference decides. */
  function InitialDark(saved: Option<string>, prefersDark: bool): (dark: bool)
    ensures saved == Some("dark") ==> dark
    ensures saved.Some? && saved.value != "" && saved.value != "dark" ==> !dark
    ensures NothingSaved(saved) ==> (dark <==> prefersDark)
  {
    saved == Some("dark") || (NothingSaved(saved) && prefersDark)
  }

  /** The value `toggleTheme` stores for a dark-mode setting. */
  function ThemeName(dark: bool): (name: string)
    ensures name == "dark" || name == "light"
  {
    if dark then "dark" else "light"
  }

  /** Reading back a stored theme yields the setting that was stored,
      whatever the system preference is. */
  lemma StoredThemeRoundTrip(dark: bool, prefersDark: bool)
    ensures InitialDark(Some(ThemeName(dark)), prefersDark) == dark
  {
  }

  /** One category tab: the catalogue filtered by category. */
  function Tab(fs: seq<Feature>, c: Category): (r: seq<Feature>)
    ensures forall f :: f in r <==> f in fs && f.category == c
    ensures IsSubsequence(r, fs)
  {
    Filter(fs, (f: Feature) => f.category == c)
  }

  /** Every feature of the catalogue shows in exactly one tab, its own. */
  lemma TabOfFeature(fs: seq<Feature>, f: Feature, c: Category)
    requires f in fs
    ensures f in Tab(fs, c) <==> c == f.category
  {
  }

  /** The four tabs together hold as many features as the catalogue: no
      feature is lost or shown twice across tabs. */
  lemma {:induction false} TabsPartition(fs: seq<Feature>)
    ensures |Tab(fs, Wellness)| + |Tab(fs, Interactive)| + |Tab(fs, Content)| + |Tab(fs, Support)| == |fs|
  {
    if fs != [] {
      TabsPartition(fs[1..]);
    }
  }

  class App {
    var isDarkMode: bool
    var storedTheme: Option<string>
    var activeFeature: Option<string>

    /** Mounting: dark mode follows the stored theme and the system preference. */
    constructor (saved: Option<string>, prefersDark: bool)
      ensures isDarkMode == InitialDark(saved, prefersDark)
      ensures storedTheme == saved && activeFeature == None
    {
      isDarkMode := InitialDark(saved, prefersDark);
      storedTheme := saved;
      activeFeature := None;
    }

    /** `toggleTheme`: flip dark mode and store the matching theme name. */
    method ToggleTheme()
      modifies this
      ensures isDarkMode == !old(isDarkMode)
      ensures storedTheme == Some(ThemeName(isDarkMode))
      ensures activeFeature == old(activeFeature)
    {
      isDarkMode := !isDarkMode;
      storedTheme := Some(ThemeName(isDarkMode));
    }

    /** Opening a feature card, and the back button. */
    method SelectFeature(id: Option<string>)
      modifies this
      ensures activeFeature == id
      ensures isDarkMode == old(isDarkMode) && storedTheme == old(storedTheme)
    {
      activeFeature := id;
    }
  }

  /** After a toggle the stored theme reproduces the new setting on the next
      mount, and two toggles restore the original setting. */
  method ToggleTwiceRestores(app: App, prefersDark: bool)
    modifies app
    ensures app.isDarkMode == old(app.isDarkMode)
    ensures InitialDark(app.storedTheme, prefersDark) == app.isDarkMode
  {
    app.ToggleTheme();
    StoredThemeRoundTrip(app.isDarkMode, prefersDark);
    app.ToggleTheme();
    StoredThemeRoundTrip(app.isDarkMode, prefersDark);
  }
}
