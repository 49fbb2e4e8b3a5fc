/**
 * The theme toggle: on mount it picks a theme from the hour of the day unless
 * a theme is already saved; a click flips dark to light and anything else to
 * dark, and saves the new theme. The current theme (`useTheme().theme`) is a
 * field here; the theme library's own persistence is not modelled.
 */
module ThemeToggle {
  import opened Storage

  /** The `localStorage` key of the saved theme. */
  const ThemeKey: string := "theme"

  datatype ThemeIcon = Sun | Moon

  /** `isDayTime`: the hour of `new Date().getHours()` is in [6, 18). */
  predicate IsDayTime(hour: int)
  {
    hour >= 6 && hour < 18
  }

  /** The theme the mount effect passes to `setTheme` when nothing is saved. */
  function TimeOfDayTheme(hour: int): string
  {
    if IsDayTime(hour) then "light" else "dark"
  }

  /** `toggleTheme`'s `newTheme`; `theme` is `undefined` before the library resolves it. */
  function NextTheme(theme: Option<string>): (newTheme: string)
    ensures newTheme == "light" || newTheme == "dark"
    ensures newTheme == "light" <==> theme == Some("dark")
  {
    if theme == Some("dark") then "light" else "dark"
  }

  /** The argument of the mount effect's `setTheme` call, if it makes one. */
  function MountCall(store: Store, hour: int): (call: Option<string>)
    ensures call.None? <==> Truthy(GetItem(store, ThemeKey))
    ensures call.Some? ==> call.value == TimeOfDayTheme(hour)
  {
    if Truthy(GetItem(store, ThemeKey)) then None else Some(TimeOfDayTheme(hour))
  }

  /** What the component renders: nothing before mounting, then the sun on the dark theme and the moon otherwise. */
  function RenderedIcon(mounted: bool, theme: Option<string>): (icon: Option<ThemeIcon>)
    ensures icon.None? <==> !mounted
    ensures icon == Some(Sun) <==> mounted && theme == Some("dark")
  {
    if !mounted then None else if theme == Some("dark") then Some(Sun) else Some(Moon)
  }

  class ThemeToggle {
    var mounted: bool
    var theme: Option<string>

    constructor (theme: Option<string>)
      ensures !mounted && this.theme == theme
    {
      mounted := false;
      this.theme := theme;
    }

    function Icon(): Option<ThemeIcon>
      reads this
    {
      RenderedIcon(mounted, theme)
    }

    /** The mount effect; it reads `localStorage` and never writes it. */
    method MountEffect(store: Store, hour: int) returns (call: Option<string>)
      modifies this
      ensures mounted
      ensures call == MountCall(store, hour)
      ensures theme == if call.Some? then call else old(theme)
    {
      mounted := true;
      var savedTheme := GetItem(store, ThemeKey);
      if Truthy(savedTheme) {
        call := None;
        return;
      }
      var isDayTime := hour >= 6 && hour < 18;
      call := Some(if isDayTime then "light" else "dark");
      theme := call;
    }

    /** `toggleTheme`: set the next theme and save it. */
    method ToggleTheme(store: Store) returns (newStore: Store)
      modifies this`theme
      ensures theme == Some(NextTheme(old(theme)))
      ensures newStore == SetItem(store, ThemeKey, NextTheme(old(theme)))
    {
      var newTheme := if theme == Some("dark") then "light" else "dark";
      theme := Some(newTheme);
      newStore := SetItem(store, ThemeKey, newTheme);
    }
  }

  // ---------------------------------------------------------------------
  // Properties
  // ---------------------------------------------------------------------

  /** Dark goes to light; light, "system" and an unresolved theme go to dark. */
  lemma NextThemeCases()
    ensures NextTheme(Some("dark")) == "light"
    ensures NextTheme(Some("light")) == "dark"
    ensures NextTheme(Some("system")) == "dark"
    ensures NextTheme(None) == "dark"
  {
  }

  /** On dark and light, toggling twice returns the original theme. */
  lemma ToggleTwice(theme: string)
    requires theme == "dark" || theme == "light"
    ensures NextTheme(Some(NextTheme(Some(theme)))) == theme
  {
  }

  /** Day is [6, 18): hours 6 and 17 give light, hours 5 and 18 give dark. */
  lemma TimeOfDayBoundaries(hour: int)
    ensures TimeOfDayTheme(hour) == "light" <==> 6 <= hour < 18
    ensures TimeOfDayTheme(6) == "light" && TimeOfDayTheme(17) == "light"
    ensures TimeOfDayTheme(5) == "dark" && TimeOfDayTheme(18) == "dark"
  {
  }

  /**
   * A toggled theme is saved, so the next mount, at any hour, leaves it alone:
   * the user's choice wins over the time of day.
   */
  lemma ToggledThemeSurvivesMount(store: Store, theme: Option<string>, hour: int)
    ensures GetItem(SetItem(store, ThemeKey, NextTheme(theme)), ThemeKey) == Some(NextTheme(theme))
    ensures MountCall(SetItem(store, ThemeKey, NextTheme(theme)), hour) == None
  {
  }
}
