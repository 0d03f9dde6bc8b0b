/**
 * The theme provider: a theme preference held in component state and
 * mirrored to persisted storage and to the settings store, resolved to a
 * concrete "light" or "dark" class on the document root, and following the
 * platform's colour-scheme signal while the preference is "system".
 */
module Theming {
  import opened Optional
  import opened Collaborators

  const Dark: string := "dark"
  const Light: string := "light"
  const System: string := "system"

  /** The default of the `defaultTheme` and `storageKey` props. */
  const DefaultTheme: string := System
  const DefaultStorageKey: string := "vite-ui-theme"

  /** The three values of the `Theme` type. */
  predicate IsTheme(t: string) {
    t == Dark || t == Light || t == System
  }

  /** `localStorage.getItem(key)`: `None` is `null`. */
  function GetItem(storage: map<string, string>, key: string): Option<string>
  {
    if key in storage then Some(storage[key]) else None
  }

  /**
   * `getItem` after `setItem(key, value)`: the same key reads back `value`,
   * and every other key reads what it read before.
   */
  lemma GetItemAfterSetItem(storage: map<string, string>, key: string, value: string, other: string)
    ensures GetItem(storage[key := value], key) == Some(value)
    ensures other != key ==> GetItem(storage[key := value], other) == GetItem(storage, other)
  {
  }

  /**
   * The initial theme, `storeTheme || (localStorage.getItem(key) ?? defaultTheme)`.
   * A falsy store value is written "" here. `||` skips the empty store
   * value, but `??` keeps an empty persisted string: only a missing entry
   * falls back to the default.
   */
  function InitialTheme(storeTheme: string, storage: map<string, string>, storageKey: string, defaultTheme: string): string
  {
    if storeTheme != "" then storeTheme else GetItem(storage, storageKey).GetOr(defaultTheme)
  }

  /** With no store value and no persisted entry, a fresh provider starts on "system". */
  lemma InitialThemeDefaultsToSystem(storage: map<string, string>)
    requires DefaultStorageKey !in storage
    ensures InitialTheme("", storage, DefaultStorageKey, DefaultTheme) == System
  {
  }

  /**
   * What `setTheme(t)` persisted is what the next mount starts from, unless
   * the settings store already holds a truthy theme, which wins.
   */
  lemma PersistedThemeSurvivesReload(storeTheme: string, storage: map<string, string>, storageKey: string,
                                     defaultTheme: string, t: string)
    ensures storeTheme == "" ==> InitialTheme(storeTheme, storage[storageKey := t], storageKey, defaultTheme) == t
    ensures storeTheme != "" ==> InitialTheme(storeTheme, storage[storageKey := t], storageKey, defaultTheme) == storeTheme
  {
  }

  /**
   * When the store value is a theme or falsy, the persisted value (if any) is
   * a theme and the default is one, the initial value is a theme.
   */
  lemma InitialThemeIsTheme(storeTheme: string, storage: map<string, string>, storageKey: string, defaultTheme: string)
    requires storeTheme == "" || IsTheme(storeTheme)
    requires storageKey in storage ==> IsTheme(storage[storageKey])
    requires IsTheme(defaultTheme)
    ensures IsTheme(InitialTheme(storeTheme, storage, storageKey, defaultTheme))
  {
  }

  /** An empty persisted string survives `??`: it does not fall back to the default. */
  lemma EmptyPersistedThemeKept(storage: map<string, string>, storageKey: string, defaultTheme: string)
    requires storageKey in storage && storage[storageKey] == ""
    ensures InitialTheme("", storage, storageKey, defaultTheme) == ""
  {
  }

  /**
   * The theme `applyTheme` puts on the root: "system" follows the platform
   * signal, every other value stands for itself. Never "system".
   */
  function Resolve(theme: string, prefersDark: bool): (r: string)
    ensures r != System
    ensures theme == System ==> (r == Dark <==> prefersDark) && (r == Dark || r == Light)
    ensures theme != System ==> r == theme
    ensures IsTheme(theme) ==> r == Dark || r == Light
  {
    if theme == System then (if prefersDark then Dark else Light) else theme
  }

  /** ASCII white space, which a class token may not contain. */
  predicate IsAsciiWhiteSpace(c: char) {
    c == ' ' || c == '\t' || c == '\n' || c == '\r' || c == '\U{C}'
  }

  /** What `classList.add` accepts: a non-empty token without ASCII white space. */
  predicate ValidToken(t: string) {
    t != [] && forall i :: 0 <= i < |t| ==> !IsAsciiWhiteSpace(t[i])
  }

  /** Both concrete themes are valid class tokens, so resolving a `Theme` never throws. */
  lemma ResolvedThemeIsToken(theme: string, prefersDark: bool)
    requires IsTheme(theme)
    ensures ValidToken(Resolve(theme, prefersDark))
  {
  }

  /**
   * The class set after `remove("light", "dark")` then `add(resolved)`:
   * `resolved` is present, every other class is as before, and when
   * `resolved` is "light" or "dark" it is the only one of the two.
   */
  function ThemeClasses(classes: set<string>, resolved: string): (c: set<string>)
    ensures resolved in c
    ensures forall x :: x != Dark && x != Light && x != resolved ==> (x in c <==> x in classes)
    ensures resolved == Dark || resolved == Light ==> c * {Dark, Light} == {resolved}
    ensures resolved != Dark && resolved != Light ==> c * {Dark, Light} == {}
  {
    (classes - {Dark, Light}) + {resolved}
  }

  /** The provider's state and what it has done to its surroundings. */
  class ThemeProvider {
    const storageKey: string

    /** The local `theme` state. */
    var theme: string
    /** The settings store's theme as this provider last rendered it ("" when falsy). */
    var storeTheme: string
    /** `localStorage`. */
    var storage: map<string, string>
    /** The root element's class list. */
    var classes: set<string>
    /** What `matchMedia("(prefers-color-scheme: dark)").matches` currently reports. */
    var prefersDark: bool
    /** Whether a colour-scheme change listener is registered. */
    var listening: bool
    ghost var registrations: nat
    ghost var removals: nat
    var settingsCalls: seq<SettingsCall>
    /**
     * False once an effect has thrown (`classList.add` of an invalid token):
     * nothing the model sees catches that, so the provider is gone.
     */
    var mounted: bool

    /**
     * Every registered listener but the current one has been removed; a
     * listener is held exactly while the theme is "system"; the root carries
     * the resolved theme, and only it of "light" and "dark"; the store was
     * last told the current theme.
     */
    ghost predicate Valid()
      reads this
    {
      && registrations == removals + (if listening then 1 else 0)
      && (!mounted ==> !listening)
      && (mounted ==>
            && (listening <==> theme == System)
            && ValidToken(Resolve(theme, prefersDark))
            && Resolve(theme, prefersDark) in classes
            && classes * {Dark, Light} == {Resolve(theme, prefersDark)} * {Dark, Light}
            && settingsCalls != []
            && settingsCalls[|settingsCalls| - 1] == SetThemePreference(theme))
    }

    /** `applyTheme`: replace "light"/"dark" by the resolved theme; `ok` is false when `add` throws. */
    method ApplyTheme() returns (ok: bool)
      modifies this`classes
      ensures ok <==> ValidToken(Resolve(theme, prefersDark))
      ensures ok ==> classes == ThemeClasses(old(classes), Resolve(theme, prefersDark))
      ensures !ok ==> classes == old(classes) - {Dark, Light}
    {
      var resolvedTheme := Resolve(theme, prefersDark);
      classes := classes - {Dark, Light};
      ok := ValidToken(resolvedTheme);
      if ok {
        classes := classes + {resolvedTheme};
      }
    }

    /**
     * The effects that follow a change of `theme`: the previous listener's
     * cleanup, then `applyTheme` and, for "system", a new listener, then
     * the push of the theme to the settings store. A throwing `applyTheme`
     * ends the provider before the rest runs.
     */
    method RunThemeEffects()
      requires mounted && registrations == removals + (if listening then 1 else 0)
      modifies this`classes, this`listening, this`registrations, this`removals, this`settingsCalls, this`mounted
      ensures registrations == removals + (if listening then 1 else 0)
      ensures mounted <==> ValidToken(Resolve(theme, prefersDark))
      ensures mounted ==> listening == (theme == System)
      ensures mounted ==> classes == ThemeClasses(old(classes), Resolve(theme, prefersDark))
      ensures mounted ==> settingsCalls == old(settingsCalls) + [SetThemePreference(theme)]
      ensures !mounted ==> !listening && settingsCalls == old(settingsCalls)
      ensures !mounted ==> classes == old(classes) - {Dark, Light}
    {
      if listening {
        listening := false;
        removals := removals + 1;
      }
      var ok := ApplyTheme();
      if !ok {
        mounted := false;
        return;
      }
      if theme == System {
        listening := true;
        registrations := registrations + 1;
      }
      settingsCalls := settingsCalls + [SetThemePreference(theme)];
    }

    /**
     * Mounting: the initial theme is resolved from the store, storage and
     * default, then the effects run once.
     */
    constructor (storeTheme: string, storage: map<string, string>, storageKey: string,
                 defaultTheme: string, prefersDark: bool, classes: set<string>)
      ensures Valid()
      ensures theme == InitialTheme(storeTheme, storage, storageKey, defaultTheme)
      ensures this.storeTheme == storeTheme && this.storage == storage && this.storageKey == storageKey
      ensures this.prefersDark == prefersDark
      ensures mounted <==> ValidToken(Resolve(theme, prefersDark))
      ensures mounted ==> this.classes == ThemeClasses(classes, Resolve(theme, prefersDark))
      ensures mounted ==> settingsCalls == [SetThemePreference(theme)]
      ensures !mounted ==> this.classes == classes - {Dark, Light} && settingsCalls == [] && !listening
    {
      this.storageKey := storageKey;
      theme := InitialTheme(storeTheme, storage, storageKey, defaultTheme);
      this.storeTheme, this.storage, this.classes, this.prefersDark := storeTheme, storage, classes, prefersDark;
      listening, registrations, removals := false, 0, 0;
      settingsCalls := [];
      mounted := true;
      new;
      RunThemeEffects();
    }

    /**
     * The context's `setTheme(t)`: persist `t` under the storage key, tell
     * the store, and adopt it locally (whose effects tell the store again).
     */
    method SetTheme(t: string)
      requires Valid() && mounted && IsTheme(t)
      modifies this
      ensures Valid() && mounted
      ensures theme == t && storage == old(storage)[storageKey := t]
      ensures storeTheme == old(storeTheme) && prefersDark == old(prefersDark)
      ensures t == old(theme) ==> settingsCalls == old(settingsCalls) + [SetThemePreference(t)] && classes == old(classes)
      ensures t != old(theme) ==>
        && settingsCalls == old(settingsCalls) + [SetThemePreference(t), SetThemePreference(t)]
        && classes == ThemeClasses(old(classes), Resolve(t, prefersDark))
    {
      ResolvedThemeIsToken(t, prefersDark);
      storage := storage[storageKey := t];
      var previous := theme;
      theme := t;
      settingsCalls := settingsCalls + [SetThemePreference(t)];
      if t != previous {
        RunThemeEffects();
      }
    }

    /**
     * The settings store's theme changed to `s`. When `s` is truthy and
     * differs from the local theme, the local theme adopts it.
     */
    method StoreThemeChanged(s: string)
      requires Valid() && mounted
      modifies this
      ensures Valid()
      ensures storeTheme == s && storage == old(storage) && prefersDark == old(prefersDark)
      ensures s != old(storeTheme) && s != "" ==> theme == s
      ensures s == old(storeTheme) || s == "" || s == old(theme) ==> unchanged(this`theme, this`classes, this`settingsCalls) && mounted
      ensures s != old(storeTheme) && s != "" && s != old(theme) ==>
        && (mounted <==> ValidToken(Resolve(s, prefersDark)))
        && (mounted ==> settingsCalls == old(settingsCalls) + [SetThemePreference(s)])
        && (mounted ==> classes == ThemeClasses(old(classes), Resolve(s, prefersDark)))
        && (!mounted ==> classes == old(classes) - {Dark, Light} && settingsCalls == old(settingsCalls))
    {
      if s == storeTheme {
        return;
      }
      storeTheme := s;
      if s != "" && s != theme {
        theme := s;
        RunThemeEffects();
      }
    }

    /** The platform's colour scheme changed; the listener, if held, re-applies the theme. */
    method PlatformChanged(dark: bool)
      requires Valid() && mounted
      modifies this
      ensures Valid() && mounted
      ensures prefersDark == dark && theme == old(theme) && storage == old(storage) && storeTheme == old(storeTheme)
      ensures settingsCalls == old(settingsCalls) && listening == old(listening)
      ensures classes * {Dark, Light} == {Resolve(theme, dark)} * {Dark, Light}
      ensures forall x :: x != Dark && x != Light ==> (x in classes <==> x in old(classes))
    {
      prefersDark := dark;
      ResolvedThemeIsToken(System, dark);
      if listening {
        var ok := ApplyTheme();
      }
    }

    /** Unmounting runs the effect cleanup: no listener is left registered. */
    method Unmount()
      requires Valid()
      modifies this
      ensures !mounted && !listening && registrations == removals
      ensures theme == old(theme) && classes == old(classes) && settingsCalls == old(settingsCalls)
      ensures storage == old(storage) && storeTheme == old(storeTheme) && prefersDark == old(prefersDark)
    {
      if listening {
        listening := false;
        removals := removals + 1;
      }
      mounted := false;
    }
  }

  /**
   * No persisted preference and a dark platform resolve to dark; after
   * `setTheme("light")` the root stays light whatever the platform does,
   * until the preference is set back to "system".
   */
  method PreferenceScenario()
  {
    var provider := new ThemeProvider("", map[], DefaultStorageKey, DefaultTheme, true, {});
    assert provider.mounted && Dark in provider.classes && provider.listening;
    provider.SetTheme(Light);
    assert !provider.listening;
    provider.PlatformChanged(false);
    provider.PlatformChanged(true);
    assert Light in provider.classes && Dark !in provider.classes;
    assert provider.storage[DefaultStorageKey] == Light;
    provider.SetTheme(System);
    assert provider.listening && Dark in provider.classes && Light !in provider.classes;
  }
}
