/** The page as a value: the preferences held in React state, the browser's
    store and the class list of the document root. The functions here are
    the specification of the effects and click handlers that the class in
    module App runs step by step, and the lemmas say what any session of
    clicks and reloads does. */
module Session {

  import opened Optional
  import opened Preferences

  datatype Page = Page(prefs: Prefs, store: Store, classes: set<string>)

  /** The store and the root element agree with the state. */
  predicate Synced(p: Page)
  {
    Reflects(p.store, p.classes, p.prefs)
  }

  /** Whether `q` differs from `p` only in the two preference keys and in the
      `dark` class. */
  ghost predicate OnlyPrefsTouched(p: Page, q: Page)
  {
    && (forall k :: k != ThemeKey && k != LangKey ==> Get(q.store, k) == Get(p.store, k))
    && q.classes - {DarkClass} == p.classes - {DarkClass}
  }

  /** The write effect: both keys written from the state, the root's `dark`
      class set to match, and nothing else changed. */
  function WriteEffect(p: Page): (r: Page)
    ensures r.prefs == p.prefs
    ensures Synced(r)
    ensures OnlyPrefsTouched(p, r)
  {
    Page(p.prefs, Written(p.store, p.prefs), ToggleClass(p.classes, DarkClass, p.prefs.dark))
  }

  /** A store that already reflects the state is left as it is by the write. */
  lemma WriteEffectOnSynced(p: Page)
    requires Synced(p)
    ensures WriteEffect(p) == p
  {
  }

  /** The first commit. The load effect runs first and reads both keys; the
      write effect of the same commit then writes the state it was rendered
      with; the state the load effect asked for is applied afterwards, and
      the write effect runs again when that changed the state. */
  function Mounted(p: Page): (r: Page)
    ensures r.prefs == Loaded(p.store, p.prefs)
    ensures Synced(r)
    ensures OnlyPrefsTouched(p, r)
  {
    var next := Loaded(p.store, p.prefs);
    var first := WriteEffect(p);
    if next == p.prefs then first else WriteEffect(first.(prefs := next))
  }

  /** Opening the page on a store and a root class list. */
  function Boot(s: Store, classes: set<string>): (r: Page)
    ensures r.prefs == Loaded(s, Initial)
    ensures Synced(r)
    ensures OnlyPrefsTouched(Page(Initial, s, classes), r)
  {
    Mounted(Page(Initial, s, classes))
  }

  /** A store that holds neither key opens the page dark and in French, and
      the first commit writes those defaults. */
  lemma BootWithoutSavedPrefs(s: Store, classes: set<string>)
    requires ThemeKey !in s && LangKey !in s
    ensures Boot(s, classes).prefs == Prefs(true, FR)
    ensures Boot(s, classes).store == s[ThemeKey := "dark"][LangKey := "fr"]
    ensures DarkClass in Boot(s, classes).classes
  {
  }

  /** The two buttons of the header. */
  datatype Event = LangButton | ThemeButton

  function Toggle(p: Prefs, e: Event): (r: Prefs)
    ensures e == LangButton ==> r.lang == Other(p.lang) && r.dark == p.dark
    ensures e == ThemeButton ==> r.dark == !p.dark && r.lang == p.lang
  {
    match e
    case LangButton => ToggleLang(p)
    case ThemeButton => ToggleTheme(p)
  }

  /** A click: the handler changes the state, which always changes one of the
      write effect's dependencies, so the write effect runs. */
  function Step(p: Page, e: Event): (r: Page)
    ensures r.prefs == Toggle(p.prefs, e)
    ensures Synced(r)
    ensures OnlyPrefsTouched(p, r)
  {
    WriteEffect(p.(prefs := Toggle(p.prefs, e)))
  }

  /** A sequence of clicks. */
  function Run(p: Page, es: seq<Event>): Page
    decreases |es|
  {
    if es == [] then p else Run(Step(p, es[0]), es[1..])
  }

  /** How often `e` occurs in `es`. */
  function Count(es: seq<Event>, e: Event): nat
  {
    multiset(es)[e]
  }

  lemma CountFirst(es: seq<Event>, e: Event)
    requires es != []
    ensures Count(es, e) == Count(es[1..], e) + if es[0] == e then 1 else 0
  {
    assert es == [es[0]] + es[1..];
  }

  /** The language after any clicks: flipped exactly when the language button
      was clicked an odd number of times. */
  lemma {:induction false} RunLang(p: Page, es: seq<Event>)
    ensures Run(p, es).prefs.lang == if Count(es, LangButton) % 2 == 0 then p.prefs.lang else Other(p.prefs.lang)
    decreases |es|
  {
    if es != [] {
      RunLang(Step(p, es[0]), es[1..]);
      CountFirst(es, LangButton);
      OtherInvolution(p.prefs.lang);
    }
  }

  /** The theme after any clicks: negated exactly when the theme button was
      clicked an odd number of times. */
  lemma {:induction false} RunTheme(p: Page, es: seq<Event>)
    ensures Run(p, es).prefs.dark == if Count(es, ThemeButton) % 2 == 0 then p.prefs.dark else !p.prefs.dark
    decreases |es|
  {
    if es != [] {
      RunTheme(Step(p, es[0]), es[1..]);
      CountFirst(es, ThemeButton);
    }
  }

  /** After any clicks each axis is flipped exactly when its own button was
      clicked an odd number of times; the other button does not affect it. */
  lemma RunPrefs(p: Page, es: seq<Event>)
    ensures Run(p, es).prefs.lang == if Count(es, LangButton) % 2 == 0 then p.prefs.lang else Other(p.prefs.lang)
    ensures Run(p, es).prefs.dark == if Count(es, ThemeButton) % 2 == 0 then p.prefs.dark else !p.prefs.dark
  {
    RunLang(p, es);
    RunTheme(p, es);
  }

  /** Clicks keep the store and the root element in step with the state, and
      never touch another key or another class. */
  lemma {:induction false} RunStaysSynced(p: Page, es: seq<Event>)
    requires Synced(p)
    ensures Synced(Run(p, es))
    ensures OnlyPrefsTouched(p, Run(p, es))
    decreases |es|
  {
    if es != [] {
      RunStaysSynced(Step(p, es[0]), es[1..]);
    }
  }

  /** Reloading after any session of clicks, whatever the new document's
      classes, comes back with the preferences the session ended with, and the
      reload ends with the store it started with. */
  lemma ReloadRestores(s: Store, classes: set<string>, es: seq<Event>, classes': set<string>)
    ensures Boot(Run(Boot(s, classes), es).store, classes').prefs == Run(Boot(s, classes), es).prefs
    ensures Boot(Run(Boot(s, classes), es).store, classes').store == Run(Boot(s, classes), es).store
  {
    var p := Run(Boot(s, classes), es);
    RunStaysSynced(Boot(s, classes), es);
    LoadReflected(p.store, p.classes, p.prefs, Initial);
    assert Written(p.store, p.prefs) == p.store;
  }
}
