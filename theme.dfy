/** The theme store of `src/stores/theme.js`: one dark-mode flag persisted as
    `"dark"` or `"light"`. Applying the class to the document is left out. */
module Theme {
  import opened Js
  import opened BrowserStorage

  /** The stored text for a flag value. */
  function ThemeName(dark: bool): string {
    if dark then "dark" else "light"
  }

  /** `localStorage.getItem('theme') === 'dark'`. */
  predicate StoredDark(items: Items) {
    Lookup(items, ThemeKey) == Some("dark")
  }

  /** Storing a flag and reading it back gives the flag, whatever else is stored. */
  lemma ThemeRoundTrip(items: Items, dark: bool)
    ensures StoredDark(items[ThemeKey := ThemeName(dark)]) == dark
    ensures ThemeName(dark) == "dark" || ThemeName(dark) == "light"
  {
  }

  /** Clearing the session never touches the stored theme. */
  lemma ClearKeepsTheme(items: Items)
    ensures Lookup(ClearSession(items), ThemeKey) == Lookup(items, ThemeKey)
    ensures StoredDark(ClearSession(items)) == StoredDark(items)
  {
  }

  class ThemeStore {
    const storage: LocalStorage
    var isDark: bool

    /** The flag agrees with what a reload would read. */
    ghost predicate Synced()
      reads this, storage
    {
      isDark == StoredDark(storage.items)
    }

    constructor (storage: LocalStorage)
      ensures this.storage == storage
      ensures isDark == StoredDark(storage.items)
      ensures Synced()
    {
      this.storage := storage;
      isDark := storage.GetItem(ThemeKey) == Some("dark");
    }

    /** Flips the flag and stores the matching name; two calls restore the flag. */
    method Toggle()
      modifies this, storage
      ensures isDark == !old(isDark)
      ensures storage.items == old(storage.items)[ThemeKey := ThemeName(isDark)]
      ensures Synced()
    {
      isDark := !isDark;
      storage.SetItem(ThemeKey, if isDark then "dark" else "light");
    }

    /** First run (no stored theme): adopt the operating system's preference
        and store it. Otherwise neither the flag nor storage changes. */
    method Init(prefersDark: bool)
      modifies this, storage
      ensures ThemeKey !in old(storage.items) ==>
        isDark == prefersDark && storage.items == old(storage.items)[ThemeKey := ThemeName(prefersDark)]
      ensures ThemeKey in old(storage.items) ==>
        isDark == old(isDark) && storage.items == old(storage.items)
      ensures old(Synced()) ==> Synced()
      ensures ThemeKey !in old(storage.items) ==> Synced()
    {
      if storage.GetItem(ThemeKey) == None {
        isDark := prefersDark;
        storage.SetItem(ThemeKey, if prefersDark then "dark" else "light");
      }
    }
  }
}
