/**
 * The theme store: the chosen theme mode and the colour palette shown for it,
 * persisted across launches (only the mode is saved).
 */
module Theme {
  import opened Wrappers

  datatype ThemeMode = Light | Dark | Warm | Forest | Ocean

  /** The four colour palettes, kept opaque: only which mode selects which matters here. */
  datatype Palette = WarmStudio | DarkStudio | ForestPalette | OceanPalette

  const DefaultTheme: ThemeMode := Warm

  /** The `THEMES` table: every mode has a palette, and `light` shares the warm studio one. */
  function Themes(m: ThemeMode): (p: Palette)
    ensures p == DarkStudio <==> m == Dark
    ensures p == WarmStudio <==> m == Light || m == Warm
  {
    match m
    case Light => WarmStudio
    case Dark => DarkStudio
    case Warm => WarmStudio
    case Forest => ForestPalette
    case Ocean => OceanPalette
  }

  /** The mode `toggleDarkMode` switches to. */
  function Toggled(m: ThemeMode): (r: ThemeMode)
    ensures r == Dark <==> m != Dark
    ensures r == Dark || r == Warm
  {
    if m == Dark then Warm else Dark
  }

  /** Toggling dark mode is not an involution: from `dark` or `warm` two toggles return; from any other mode they end at `warm`. */
  lemma ToggleTwice(m: ThemeMode)
    ensures Toggled(Toggled(m)) == (if m == Dark || m == Warm then m else Warm)
    ensures m == Light ==> Toggled(m) == Dark && Toggled(Toggled(m)) == Warm
  {
  }

  /** `light` and `warm` are distinct modes showing the same palette. */
  lemma LightAndWarmShareAPalette()
    ensures Light != Warm && Themes(Light) == Themes(Warm)
  {
  }

  /** What the store persists: the `partialize` projection. */
  datatype PersistedTheme = PersistedTheme(themeMode: ThemeMode)

  class ThemeStore {
    var themeMode: ThemeMode
    var colors: Palette

    /** The palette shown is always the one for the current mode. */
    ghost predicate Valid()
      reads this
    {
      colors == Themes(themeMode)
    }

    function Persisted(): PersistedTheme
      reads this
    {
      PersistedTheme(themeMode)
    }

    constructor ()
      ensures Valid() && themeMode == DefaultTheme && colors == Themes(Warm)
    {
      themeMode := DefaultTheme;
      colors := Themes(DefaultTheme);
    }

    method SetTheme(mode: ThemeMode)
      modifies this
      ensures Valid() && themeMode == mode
      ensures old(themeMode) == mode && old(Valid()) ==> colors == old(colors)
    {
      themeMode, colors := mode, Themes(mode);
    }

    method ToggleDarkMode()
      modifies this
      ensures Valid() && themeMode == Toggled(old(themeMode))
      ensures themeMode == Dark <==> old(themeMode) != Dark
    {
      var newMode := Toggled(themeMode);
      themeMode, colors := newMode, Themes(newMode);
    }

    /**
     * Rehydration from storage: a saved mode is merged into the state, and the
     * rehydrate hook then recomputes the palette from the mode, whatever
     * palette the state held. `saved` is `None` when nothing was stored.
     */
    method Rehydrate(saved: Option<PersistedTheme>)
      modifies this
      ensures Valid()
      ensures themeMode == (if saved.Some? then saved.value.themeMode else old(themeMode))
    {
      if saved.Some? {
        themeMode := saved.value.themeMode;
      }
      colors := Themes(themeMode);
    }
  }

  /**
   * A relaunch: the saved projection of one store is rehydrated into a fresh
   * store, which then shows the same mode and the same palette.
   */
  method Relaunch(before: ThemeStore) returns (after: ThemeStore)
    requires before.Valid()
    ensures fresh(after) && after.Valid()
    ensures after.themeMode == before.themeMode && after.colors == before.colors
  {
    var saved := before.Persisted();
    after := new ThemeStore();
    after.Rehydrate(Some(saved));
  }
}
