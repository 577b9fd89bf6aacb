/** The light/dark theme switch (src/components/ThemeToggle.tsx): the initial
    choice, the root element's `dark` class, the stored preference and the
    system-preference listener.

    The browser is an input: the stored `theme` key (`None` when absent),
    whether the `prefers-color-scheme: dark` query exists and matches, and the
    root element's class list. */
module ThemeToggle {
  import opened Wrappers

  datatype Theme = Light | Dark

  /** The string stored under the `theme` key. */
  function ThemeName(t: Theme): string
  {
    match t
    case Light => "light"
    case Dark => "dark"
  }

  /** A stored value counts only when it is exactly "light" or "dark". */
  function StoredTheme(stored: Option<string>): (t: Option<Theme>)
    ensures t.Some? <==> stored == Some("light") || stored == Some("dark")
    ensures t.Some? ==> stored == Some(ThemeName(t.value))
  {
    if stored == Some("light") then Some(Light)
    else if stored == Some("dark") then Some(Dark)
    else None
  }

  /** `getInitialTheme`: dark without a window; else a valid stored choice;
      else the system preference. */
  function GetInitialTheme(hasWindow: bool, stored: Option<string>, prefersDark: bool): (t: Theme)
    ensures !hasWindow ==> t == Dark
    ensures hasWindow && StoredTheme(stored).Some? ==> t == StoredTheme(stored).value
    ensures hasWindow && StoredTheme(stored).None? ==> (t == Dark <==> prefersDark)
  {
    if !hasWindow then Dark
    else match StoredTheme(stored)
      case Some(t) => t
      case None => if prefersDark then Dark else Light
  }

  /** The button's updater: dark becomes light and light becomes dark. */
  function Toggle(t: Theme): (u: Theme)
    ensures u != t
  {
    if t == Dark then Light else Dark
  }

  /** Toggling twice restores the theme. */
  lemma ToggleInvolution(t: Theme)
    ensures Toggle(Toggle(t)) == t
  {
  }

  /** `applyTheme` on the root element's class list: only the `dark` class
      changes, present iff the theme is dark. */
  function ApplyTheme(classes: set<string>, t: Theme): (r: set<string>)
    ensures "dark" in r <==> t == Dark
    ensures r - {"dark"} == classes - {"dark"}
  {
    if t == Dark then classes + {"dark"} else classes - {"dark"}
  }

  /** Applying is idempotent, and the last theme applied decides. */
  lemma {:induction false} ApplyThemeIdempotent(classes: set<string>, t: Theme, u: Theme)
    ensures ApplyTheme(ApplyTheme(classes, t), t) == ApplyTheme(classes, t)
    ensures ApplyTheme(ApplyTheme(classes, u), t) == ApplyTheme(classes, t)
  {
  }

  /** The sync effect's test, `if (stored) return;`: it installs its listener
      only when the key is absent or empty when the effect runs. */
  predicate SyncListenerWanted(storedNow: Option<string>)
  {
    storedNow.None? || storedNow.value == ""
  }

  /** As written, the persistence effect (declared first) has already stored
      the theme when the sync effect runs, so the listener is never installed. */
  lemma SyncListenerNeverInstalled(t: Theme)
    ensures !SyncListenerWanted(Some(ThemeName(t)))
  {
  }

  /** The evident intent ("if the user hasn't explicitly chosen"): install the
      listener iff the storage held no valid choice at mount, that is iff the
      initial theme came from the system preference. */
  function IntendedListener(storedAtMount: Option<string>): (wanted: bool)
    ensures wanted <==> StoredTheme(storedAtMount).None?
    ensures wanted ==> forall prefersDark: bool ::
              (GetInitialTheme(true, storedAtMount, prefersDark) == Dark <==> prefersDark)
  {
    StoredTheme(storedAtMount).None?
  }

  /** The component in the browser. */
  class ThemeState {
    var theme: Theme
    var rootClasses: set<string>
    var storage: Option<string>
    var listenerInstalled: bool

    /** The root class and the stored key both reflect the theme. */
    ghost predicate Synced()
      reads this
    {
      ("dark" in rootClasses <==> theme == Dark) && storage == Some(ThemeName(theme))
    }

    /** Mounting: the initial theme, then the two effects in declaration order
      (persist the theme, then decide on the system listener). */
    constructor (stored: Option<string>, prefersDark: bool, classes: set<string>)
      ensures theme == GetInitialTheme(true, stored, prefersDark)
      ensures rootClasses == ApplyTheme(classes, theme)
      ensures Synced()
      ensures !listenerInstalled
    {
      var t := GetInitialTheme(true, stored, prefersDark);
      var stores := Some(ThemeName(t));
      theme, rootClasses, storage := t, ApplyTheme(classes, t), stores;
      listenerInstalled := SyncListenerWanted(stores);
      SyncListenerNeverInstalled(t);
    }

    /** Mounting with the listener decided from the storage read before the
      persistence effect, as the comment on the sync effect intends. */
    constructor Intended(stored: Option<string>, prefersDark: bool, classes: set<string>)
      ensures theme == GetInitialTheme(true, stored, prefersDark)
      ensures rootClasses == ApplyTheme(classes, theme)
      ensures Synced()
      ensures listenerInstalled <==> StoredTheme(stored).None?
    {
      var t := GetInitialTheme(true, stored, prefersDark);
      theme, rootClasses, storage := t, ApplyTheme(classes, t), Some(ThemeName(t));
      listenerInstalled := IntendedListener(stored);
    }

    /** A click: toggle, then the persistence effect applies and stores. */
    method ClickToggle()
      modifies this
      ensures theme == Toggle(old(theme))
      ensures rootClasses - {"dark"} == old(rootClasses) - {"dark"}
      ensures Synced()
      ensures listenerInstalled == old(listenerInstalled)
    {
      theme := Toggle(theme);
      rootClasses := ApplyTheme(rootClasses, theme);
      storage := Some(ThemeName(theme));
    }

    /** A change of the system preference: only an installed listener reacts,
      following the system and then persisting like any theme change. */
    method SystemSchemeChanged(matches: bool)
      requires Synced()
      modifies this
      ensures Synced()
      ensures listenerInstalled == old(listenerInstalled)
      ensures old(listenerInstalled) ==> (theme == Dark <==> matches)
      ensures rootClasses - {"dark"} == old(rootClasses) - {"dark"}
      ensures !old(listenerInstalled) ==>
                theme == old(theme) && rootClasses == old(rootClasses) && storage == old(storage)
    {
      if listenerInstalled {
        var next := if matches then Dark else Light;
        theme := next;
        rootClasses := ApplyTheme(rootClasses, next);
        storage := Some(ThemeName(next));
      }
    }
  }
}
