/** The colour theme: chosen from storage or the system preference on start,
    toggled between light and dark, and applied to the document root's class
    list and to storage after every change. */
module Theme {
  import opened Wrappers
  import opened JsText
  import opened Storage

  const Light: string := "light"
  const Dark: string := "dark"

  /** The starting theme: the stored one when it is set and non-empty,
      otherwise dark exactly when the system prefers a dark scheme. */
  function InitialTheme(saved: Option<string>, prefersDark: bool): (t: string)
    ensures t != ""
    ensures Truthy(saved) ==> t == saved.value
  {
    if !Truthy(saved) then (if prefersDark then Dark else Light) else saved.value
  }

  /** `toggleTheme`: light becomes dark, anything else becomes light. */
  function Toggle(t: string): (r: string)
    ensures r == Light || r == Dark
    ensures r == Dark <==> t == Light
  {
    if t == Light then Dark else Light
  }

  /** Toggling twice from light or dark gives back the same theme. */
  lemma ToggleTwice(t: string)
    requires t == Light || t == Dark
    ensures Toggle(Toggle(t)) == t
  {
  }

  /** The effect's class changes: 'dark' added and 'light' removed for the dark
      theme, the other way round for any other theme. */
  function ApplyClasses(classes: set<string>, t: string): (r: set<string>)
    ensures t == Dark ==> Dark in r && Light !in r
    ensures t != Dark ==> Light in r && Dark !in r
    ensures forall c :: c != Dark && c != Light ==> (c in r <==> c in classes)
  {
    if t == Dark then classes + {Dark} - {Light} else classes + {Light} - {Dark}
  }

  /** The root's classes agree with the theme. */
  predicate ClassesMatch(classes: set<string>, t: string) {
    if t == Dark then Dark in classes && Light !in classes
    else Light in classes && Dark !in classes
  }

  class ThemeProvider {
    var theme: string
    var rootClasses: set<string>
    const storage: LocalStorage

    /** After every change the stored theme and the root's classes agree with it. */
    predicate Valid()
      reads this, storage
    {
      ThemeKey in storage.items && storage.items[ThemeKey] == theme && ClassesMatch(rootClasses, theme)
    }

    /** Mounting picks the initial theme, then the effect applies it. */
    constructor (storage: LocalStorage, prefersDark: bool, classes: set<string>)
      modifies storage
      ensures this.storage == storage
      ensures theme == InitialTheme(Get(old(storage.items), ThemeKey), prefersDark)
      ensures storage.items == old(storage.items)[ThemeKey := theme]
      ensures rootClasses == ApplyClasses(classes, theme)
      ensures Valid()
    {
      theme := InitialTheme(Get(storage.items, ThemeKey), prefersDark);
      this.storage := storage;
      rootClasses := classes;
      new;
      ApplyTheme();
    }

    /** The effect that runs after every theme change. */
    method ApplyTheme()
      modifies this`rootClasses, storage
      ensures storage.items == old(storage.items)[ThemeKey := theme]
      ensures rootClasses == ApplyClasses(old(rootClasses), theme)
      ensures Valid()
    {
      if theme == Dark {
        rootClasses := rootClasses + {Dark};
        rootClasses := rootClasses - {Light};
      } else {
        rootClasses := rootClasses + {Light};
        rootClasses := rootClasses - {Dark};
      }
      storage.items := storage.items[ThemeKey := theme];
    }

    /** Toggle, then apply. */
    method ToggleTheme()
      modifies this, storage
      ensures theme == Toggle(old(theme))
      ensures storage.items == old(storage.items)[ThemeKey := theme]
      ensures rootClasses == ApplyClasses(old(rootClasses), theme)
      ensures Valid()
    {
      theme := Toggle(theme);
      ApplyTheme();
    }
  }

  /** A reload after any change starts from the theme that was showing,
      whatever the system preference. */
  lemma ReloadKeepsTheme(p: ThemeProvider, prefersDark: bool)
    requires p.Valid() && p.theme != ""
    ensures InitialTheme(Get(p.storage.items, ThemeKey), prefersDark) == p.theme
  {
  }

  const OutsideThemeProvider: string := "useTheme debe ser usado dentro de un ThemeProvider"

  /** `useTheme`: the provider's context, or the error thrown outside one. */
  function UseTheme(context: Option<ThemeProvider>): (r: Result<ThemeProvider, string>)
    ensures r.Ok? <==> context.Some?
    ensures r.Ok? ==> r.value == context.value
    ensures r.Err? ==> r.error == OutsideThemeProvider
  {
    if context.None? then Err(OutsideThemeProvider) else Ok(context.value)
  }
}
