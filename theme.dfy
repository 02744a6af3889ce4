/**
 * The colour theme (src/lib/stores/theme.svelte.ts): the current theme,
 * its lazy initialisation from the `theme` storage slot, and the
 * `data-theme` attribute of the document element.
 */
module Theme {
  import opened Wrappers

  const Dark := "dark"
  const Light := "light"

  /** The `data-theme` attribute `apply(value)` leaves: the value for the two known themes, none otherwise. */
  function AppliedAttribute(value: string): (a: Option<string>)
    ensures a.Some? <==> value == Light || value == Dark
    ensures a.Some? ==> a.value == value
  {
    if value == Light then Some(Light) else if value == Dark then Some(Dark) else None
  }

  /** The theme a first read settles on: a truthy saved theme, else dark. */
  function StartingTheme(saved: Option<string>): (t: string)
    ensures saved.Some? && saved.value != "" ==> t == saved.value
    ensures saved.None? || saved.value == "" ==> t == Dark
  {
    if saved.Some? && saved.value != "" then saved.value else Dark
  }

  /**
   * A theme that was set is the theme of the next page load, unless it was
   * the empty string, which storage keeps but the next load reads as dark.
   */
  lemma SetThemeIsRemembered(value: string)
    ensures StartingTheme(Some(value)) == if value == "" then Dark else value
  {
  }

  /** `ThemeState`, with the storage slot and the document attribute it writes. */
  class ThemeState {
    var current: string
    var initialized: bool
    /** `localStorage.getItem('theme')` */
    var saved: Option<string>
    /** `document.documentElement`'s `data-theme` attribute */
    var dataTheme: Option<string>
    const browser: bool

    constructor (browser: bool, saved: Option<string>, dataTheme: Option<string>)
      ensures this.browser == browser && this.saved == saved && this.dataTheme == dataTheme
      ensures current == Dark && !initialized
    {
      this.browser := browser;
      this.saved := saved;
      this.dataTheme := dataTheme;
      current := Dark;
      initialized := false;
    }

    /** `apply(value)`: only in a browser. */
    method Apply(value: string)
      modifies this
      ensures dataTheme == if browser then AppliedAttribute(value) else old(dataTheme)
      ensures current == old(current) && initialized == old(initialized) && saved == old(saved)
    {
      if !browser {
        return;
      }
      if value == Light {
        dataTheme := Some(Light);
      } else if value == Dark {
        dataTheme := Some(Dark);
      } else {
        dataTheme := None;
      }
    }

    /**
     * `ensureInitialized()`: once, in a browser, the saved theme or dark
     * becomes current and is applied; dark is also written to storage when
     * nothing truthy was saved. Otherwise nothing changes.
     */
    method EnsureInitialized()
      modifies this
      ensures old(initialized) || !browser ==>
        current == old(current) && initialized == old(initialized) && saved == old(saved) && dataTheme == old(dataTheme)
      ensures !old(initialized) && browser ==>
        && initialized
        && current == StartingTheme(old(saved))
        && saved == Some(current)
        && dataTheme == AppliedAttribute(current)
    {
      if !initialized && browser {
        initialized := true;
        if saved.Some? && saved.value != "" {
          current := saved.value;
          Apply(saved.value);
        } else {
          current := Dark;
          saved := Some(Dark);
          Apply(Dark);
        }
      }
    }

    /** `set(value)`: the theme is `value` afterwards; in a browser it is also saved and applied, elsewhere only `current` changes. */
    method Set(value: string)
      modifies this
      ensures current == value
      ensures browser ==> initialized && saved == Some(value) && dataTheme == AppliedAttribute(value)
      ensures !browser ==> saved == old(saved) && dataTheme == old(dataTheme) && initialized == old(initialized)
    {
      EnsureInitialized();
      current := value;
      if browser {
        saved := Some(value);
        Apply(value);
      }
    }

    /** The `value` getter: initialises if needed, then reports the current theme. */
    method Value() returns (v: string)
      modifies this
      ensures v == current
      ensures !old(initialized) && browser ==>
        initialized && v == StartingTheme(old(saved)) && saved == Some(v) && dataTheme == AppliedAttribute(v)
      ensures old(initialized) || !browser ==>
        v == old(current) && initialized == old(initialized) && saved == old(saved) && dataTheme == old(dataTheme)
    {
      EnsureInitialized();
      v := current;
    }
  }
}
