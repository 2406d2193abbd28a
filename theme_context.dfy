/** The theme provider (`ThemeProvider`): a light/dark mode, the theme object
    selected by it, and the effect that mirrors it as a `dark` class on the
    document root. */
module ThemeContext {
  import opened Wrappers

  datatype ThemeMode = Light | Dark

  /** The two token tables a theme object can be (`lightTheme`, `darkTheme`). */
  datatype ThemeObject = LightTheme | DarkTheme

  const DarkClass: string := "dark"

  /** `mode === 'light' ? lightTheme : darkTheme`. */
  function ThemeFor(mode: ThemeMode): (t: ThemeObject)
    ensures t == LightTheme <==> mode == Light
    ensures t == DarkTheme <==> mode == Dark
  {
    match mode
    case Light => LightTheme
    case Dark => DarkTheme
  }

  /** `prev === 'light' ? 'dark' : 'light'`: the other mode. */
  function Flip(mode: ThemeMode): (r: ThemeMode)
    ensures r != mode
  {
    if mode == Light then Dark else Light
  }

  /** Flipping always changes the mode, and flipping twice is the identity. */
  lemma FlipInvolution(mode: ThemeMode)
    ensures Flip(mode) != mode
    ensures Flip(Flip(mode)) == mode
  {
  }

  /** Theme selection tells the two modes apart. */
  lemma ThemeForInjective(a: ThemeMode, b: ThemeMode)
    ensures ThemeFor(a) == ThemeFor(b) <==> a == b
  {
  }

  /** The root's class list after the mode effect. */
  function ApplyModeClass(classes: set<string>, mode: ThemeMode): (r: set<string>)
    ensures DarkClass in r <==> mode == Dark
    ensures r - {DarkClass} == classes - {DarkClass}
  {
    if mode == Dark then classes + {DarkClass} else classes - {DarkClass}
  }

  /** Re-running the effect for the same mode changes nothing more. */
  lemma ApplyModeClassIdempotent(classes: set<string>, mode: ThemeMode)
    ensures ApplyModeClass(ApplyModeClass(classes, mode), mode) == ApplyModeClass(classes, mode)
  {
  }

  /** `document.documentElement`, reduced to its class list. */
  class RootElement {
    var classList: set<string>

    constructor (classList: set<string>)
      ensures this.classList == classList
    {
      this.classList := classList;
    }
  }

  class ThemeProvider {
    var mode: ThemeMode
    var theme: ThemeObject

    /** `defaultTheme` defaults to light; the theme object starts out selected
        by the initial mode. */
    constructor (defaultTheme: Option<ThemeMode>)
      ensures mode == (if defaultTheme.Some? then defaultTheme.value else Light)
      ensures theme == ThemeFor(mode)
    {
      var initial := if defaultTheme.Some? then defaultTheme.value else Light;
      mode := initial;
      theme := ThemeFor(initial);
    }

    method ToggleTheme()
      modifies this`mode
      ensures mode == Flip(old(mode)) && mode != old(mode)
    {
      mode := Flip(mode);
    }

    method SetTheme(newMode: ThemeMode)
      modifies this`mode
      ensures mode == newMode
    {
      mode := newMode;
    }

    /** The effect that runs after every mode change: it adds or removes `dark`
        on the root, touching no other class, and reselects the theme object. */
    method ModeEffect(root: RootElement)
      modifies root, this`theme
      ensures root.classList == ApplyModeClass(old(root.classList), mode)
      ensures DarkClass in root.classList <==> mode == Dark
      ensures root.classList - {DarkClass} == old(root.classList) - {DarkClass}
      ensures theme == ThemeFor(mode)
    {
      if mode == Dark {
        root.classList := root.classList + {DarkClass};
      } else {
        root.classList := root.classList - {DarkClass};
      }
      theme := ThemeFor(mode);
    }
  }

  /** What `useTheme()` returns: the enclosing provider, or the default
      context (light mode, no-op setters) when there is none. */
  datatype ThemeHandle = DefaultContext | ProviderContext(provider: ThemeProvider)

  function Footprint(h: ThemeHandle): (s: set<object>)
  {
    if h.ProviderContext? then {h.provider} else {}
  }

  function ModeOf(h: ThemeHandle): (m: ThemeMode)
    reads Footprint(h)
    ensures h.DefaultContext? ==> m == Light
  {
    match h
    case DefaultContext => Light
    case ProviderContext(p) => p.mode
  }

  function ThemeOf(h: ThemeHandle): (t: ThemeObject)
    reads Footprint(h)
    ensures h.DefaultContext? ==> t == LightTheme
  {
    match h
    case DefaultContext => LightTheme
    case ProviderContext(p) => p.theme
  }

  /** `toggleTheme` through a handle: a no-op on the default context. */
  method ToggleVia(h: ThemeHandle)
    modifies Footprint(h)
    ensures ModeOf(h) == if h.DefaultContext? then Light else Flip(old(ModeOf(h)))
    ensures h.ProviderContext? ==> h.provider.theme == old(h.provider.theme)
  {
    if h.ProviderContext? {
      h.provider.ToggleTheme();
    }
  }

  /** `setTheme` through a handle: a no-op on the default context. */
  method SetVia(h: ThemeHandle, newMode: ThemeMode)
    modifies Footprint(h)
    ensures ModeOf(h) == if h.DefaultContext? then Light else newMode
    ensures h.ProviderContext? ==> h.provider.theme == old(h.provider.theme)
  {
    if h.ProviderContext? {
      h.provider.SetTheme(newMode);
    }
  }

  /** A client: toggling twice, each change followed by its effect, returns the
      root and the theme object to where they were. */
  method ToggleTwiceRestores()
  {
    var root := new RootElement({"app"});
    var p := new ThemeProvider(None);
    p.ModeEffect(root);
    var before := root.classList;
    assert DarkClass !in before && p.theme == LightTheme;
    p.ToggleTheme();
    p.ModeEffect(root);
    assert DarkClass in root.classList && p.theme == DarkTheme;
    p.ToggleTheme();
    p.ModeEffect(root);
    assert root.classList == before && p.theme == LightTheme;
  }
}
