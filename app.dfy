/** The `App` component's preference controller: the `dark` and `lang` React
    state, the browser's `localStorage` and the class list of the document
    root, changed in place by the two effects and the two click handlers. */
module App {

  import opened Optional
  import opened Preferences
  import opened Session

  class PreferenceController {
    var dark: bool
    var lang: Lang
    /** `localStorage`, which outlives the page. */
    var store: Store
    /** `document.documentElement.classList`. */
    var rootClasses: set<string>

    /** The whole state as a value. */
    function Snapshot(): Page
      reads this
    {
      Page(Prefs(dark, lang), store, rootClasses)
    }

    /** The first render: state from `useState(true)` and `useState('fr')`,
        before any effect has run. */
    constructor (saved: Store, classes: set<string>)
      ensures Snapshot() == Page(Initial, saved, classes)
    {
      dark, lang := true, FR;
      store, rootClasses := saved, classes;
    }

    /** The load effect: reads both keys and answers the state its setters ask
        for. The setters do not take effect before the current commit's other
        effects have run, so the state itself is not changed here. */
    method Load() returns (next: Prefs)
      ensures next == Loaded(store, Prefs(dark, lang))
    {
      var savedTheme := Get(store, ThemeKey);
      var savedLang := Get(store, LangKey);
      next := Prefs(dark, lang);
      if savedTheme.Some? && savedTheme.value != "" {
        next := next.(dark := savedTheme.value == "dark");
      }
      if savedLang == Some("fr") || savedLang == Some("en") {
        next := next.(lang := if savedLang.value == "fr" then FR else EN);
      }
    }

    /** React applying the state updates queued by the setters. */
    method SetPrefs(next: Prefs)
      modifies this`dark, this`lang
      ensures dark == next.dark && lang == next.lang
    {
      dark, lang := next.dark, next.lang;
    }

    /** The write effect: two `setItem` calls and `classList.toggle`. */
    method WriteThrough()
      modifies this`store, this`rootClasses
      ensures Snapshot() == WriteEffect(old(Snapshot()))
      ensures Synced(Snapshot())
    {
      store := store[ThemeKey := if dark then "dark" else "light"];
      store := store[LangKey := LangCode(lang)];
      if dark {
        rootClasses := rootClasses + {DarkClass};
      } else {
        rootClasses := rootClasses - {DarkClass};
      }
    }

    /** The language button's handler. */
    method ToggleLang()
      modifies this`lang
      ensures lang == Other(old(lang))
    {
      lang := if lang == FR then EN else FR;
    }

    /** The theme button's handler. */
    method ToggleTheme()
      modifies this`dark
      ensures dark == !old(dark)
    {
      dark := !dark;
    }

    /** A click on one of the two buttons, followed by the write effect that
        the changed dependency triggers. */
    method Click(e: Event)
      modifies this
      ensures Snapshot() == Step(old(Snapshot()), e)
    {
      match e {
        case LangButton => ToggleLang();
        case ThemeButton => ToggleTheme();
      }
      WriteThrough();
    }

    /** The effects of the first commit, in React's order: the load effect
        reads, the write effect writes the state of the first render, then the
        loaded state is applied and, if it differs, written again. */
    method Mount()
      modifies this
      ensures Snapshot() == Mounted(old(Snapshot()))
    {
      var next := Load();
      WriteThrough();
      if next != Prefs(dark, lang) {
        SetPrefs(next);
        WriteThrough();
      }
    }
  }

  /** Two visits to the page sharing one store: the first finds nothing saved
      and switches to English, the second comes back in English and dark. */
  method TwoVisits(classes: set<string>)
  {
    var first := new PreferenceController(map[], classes);
    first.Mount();
    assert first.dark && first.lang == FR;
    assert first.store == map[ThemeKey := "dark", LangKey := "fr"];
    first.Click(LangButton);
    assert first.lang == EN && first.store[LangKey] == "en";

    var second := new PreferenceController(first.store, classes);
    second.Mount();
    assert second.dark && second.lang == EN;
    assert DarkClass in second.rootClasses;
  }
}
