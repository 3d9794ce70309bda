/** The two user preferences of the portfolio page (theme and language), how
    they are written to the browser's key-value store and how they are read
    back from it. Everything here is a value; the component that owns the
    state is the class in module App. */
module Preferences {

  import opened Optional

  /** The page language: the closed set {'fr', 'en'} of `useState<'fr' | 'en'>`. */
  datatype Lang = FR | EN

  /** The pair of preferences the component keeps in React state. */
  datatype Prefs = Prefs(dark: bool, lang: Lang)

  /** `localStorage`: string keys to string values. */
  type Store = map<string, string>

  const ThemeKey: string := "wanil-theme"
  const LangKey: string := "wanil-lang"

  /** The class the write effect toggles on the document root. */
  const DarkClass: string := "dark"

  /** The state before any effect has run: `useState(true)` and `useState('fr')`. */
  const Initial: Prefs := Prefs(true, FR)

  /** `localStorage.getItem(key)`: the stored string, or null when absent. */
  function Get(s: Store, key: string): (r: Option<string>)
    ensures r.Some? <==> key in s
    ensures r.Some? ==> r.value == s[key]
  {
    if key in s then Some(s[key]) else None
  }

  /** The string stored for a language, which is also the language's own code. */
  function LangCode(l: Lang): (r: string)
    ensures r == "fr" <==> l == FR
    ensures l == EN ==> r == "en"
  {
    match l
    case FR => "fr"
    case EN => "en"
  }

  lemma LangCodeInjective(l1: Lang, l2: Lang)
    ensures LangCode(l1) == LangCode(l2) <==> l1 == l2
  {
  }

  /** The string stored for a theme: 'dark' when dark, 'light' otherwise. */
  function ThemeValue(dark: bool): (r: string)
    ensures r == "dark" <==> dark
    ensures !dark ==> r == "light"
  {
    if dark then "dark" else "light"
  }

  /** JavaScript truthiness of a `string | null`: null and '' are falsy. */
  predicate Truthy(v: Option<string>)
  {
    v.Some? && v.value != ""
  }

  /** What the load effect does to `dark` given the stored theme: a truthy value
      replaces it by whether the value is exactly 'dark'; null or '' keep it. */
  function LoadTheme(saved: Option<string>, current: bool): (r: bool)
    ensures !Truthy(saved) ==> r == current
    ensures Truthy(saved) ==> (r <==> saved.value == ThemeValue(true))
  {
    if Truthy(saved) then saved.value == "dark" else current
  }

  /** What the load effect does to `lang` given the stored language: it adopts
      the stored value exactly when that value is the code of a language, and
      otherwise keeps the current one. */
  function LoadLang(saved: Option<string>, current: Lang): (r: Lang)
    ensures (exists l :: saved == Some(LangCode(l))) ==> saved == Some(LangCode(r))
    ensures (forall l :: saved != Some(LangCode(l))) ==> r == current
  {
    if saved == Some("fr") then FR
    else if saved == Some("en") then EN
    else current
  }

  /** The state the load effect asks React to adopt, reading both keys: a
      truthy stored theme decides `dark`, a stored language code decides
      `lang`, and each of the two stays as it was otherwise. */
  function Loaded(s: Store, p: Prefs): (r: Prefs)
    ensures Truthy(Get(s, ThemeKey)) ==> (r.dark <==> s[ThemeKey] == "dark")
    ensures !Truthy(Get(s, ThemeKey)) ==> r.dark == p.dark
    ensures (exists l :: Get(s, LangKey) == Some(LangCode(l))) ==> s[LangKey] == LangCode(r.lang)
    ensures (forall l :: Get(s, LangKey) != Some(LangCode(l))) ==> r.lang == p.lang
  {
    Prefs(LoadTheme(Get(s, ThemeKey), p.dark), LoadLang(Get(s, LangKey), p.lang))
  }

  /** The store after the write effect's two `setItem` calls. */
  function Written(s: Store, p: Prefs): (r: Store)
    ensures Get(r, ThemeKey) == Some(ThemeValue(p.dark))
    ensures Get(r, LangKey) == Some(LangCode(p.lang))
    ensures forall k :: k != ThemeKey && k != LangKey ==> Get(r, k) == Get(s, k)
    ensures r.Keys == s.Keys + {ThemeKey, LangKey}
  {
    s[ThemeKey := ThemeValue(p.dark)][LangKey := LangCode(p.lang)]
  }

  /** `classList.toggle(c, on)`: afterwards `c` is present exactly when `on`,
      and no other class has changed. */
  function ToggleClass(classes: set<string>, c: string, on: bool): (r: set<string>)
    ensures c in r <==> on
    ensures r - {c} == classes - {c}
  {
    if on then classes + {c} else classes - {c}
  }

  /** Whether the store and the root element both reflect the preferences. */
  predicate Reflects(s: Store, classes: set<string>, p: Prefs)
  {
    && Get(s, ThemeKey) == Some(ThemeValue(p.dark))
    && Get(s, LangKey) == Some(LangCode(p.lang))
    && (DarkClass in classes <==> p.dark)
  }

  /** Reading back what was written gives the written preferences, whatever the
      state the reader starts from and whatever else the store holds. */
  lemma LoadAfterWrite(s: Store, p: Prefs, q: Prefs)
    ensures Loaded(Written(s, p), q) == p
  {
  }

  /** A store that reflects `p` loads back as `p`. */
  lemma LoadReflected(s: Store, classes: set<string>, p: Prefs, q: Prefs)
    requires Reflects(s, classes, p)
    ensures Loaded(s, q) == p
  {
  }

  /** Writing twice is writing the second time only; in particular the write
      is idempotent. */
  lemma WriteOverwrites(s: Store, p: Prefs, q: Prefs)
    ensures Written(Written(s, p), q) == Written(s, q)
  {
  }

  /** The language the language button switches to. */
  function Other(l: Lang): (r: Lang)
    ensures r != l
  {
    match l
    case FR => EN
    case EN => FR
  }

  lemma OtherInvolution(l: Lang)
    ensures Other(Other(l)) == l
  {
  }

  /** The language button's click handler, `setLang(lang === 'fr' ? 'en' : 'fr')`. */
  function ToggleLang(p: Prefs): (r: Prefs)
    ensures r.lang != p.lang && r.dark == p.dark
  {
    p.(lang := Other(p.lang))
  }

  /** The theme button's click handler, `setDark((d) => !d)`. */
  function ToggleTheme(p: Prefs): (r: Prefs)
    ensures r.dark != p.dark && r.lang == p.lang
  {
    p.(dark := !p.dark)
  }

  lemma TogglesAreInvolutions(p: Prefs)
    ensures ToggleLang(ToggleLang(p)) == p
    ensures ToggleTheme(ToggleTheme(p)) == p
  {
  }

  /** ASCII upper case, as the button label shows language codes. */
  function UpperChar(c: char): char
  {
    if 'a' <= c <= 'z' then (c as int - 32) as char else c
  }

  function Upper(s: string): (r: string)
    ensures |r| == |s|
  {
    if s == [] then [] else [UpperChar(s[0])] + Upper(s[1..])
  }

  /** The language button's label: the code, in capitals, of the language a
      click switches to. */
  function ButtonLabel(l: Lang): (r: string)
    ensures r == Upper(LangCode(Other(l)))
  {
    if l == FR then "EN" else "FR"
  }
}
