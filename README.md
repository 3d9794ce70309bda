# Portfolio page preferences: a verified Dafny model

The portfolio page (`src/App.tsx`) keeps two user preferences: a dark/light
theme and a page language (French or English). Its `App` component holds
them in React state (`dark`, default `true`; `lang`, default `'fr'`). Two
effects connect them to the browser:

- the load effect runs once on mount and reads `wanil-theme` and `wanil-lang`
  from `localStorage`;
- the write effect runs whenever either preference changes. It writes both
  keys back and toggles the `dark` class on the document root.

Two header buttons flip the language and the theme. The active string table
`t` is `strings.fr` or `strings.en` according to `lang`, and every translated
phrase is read through it; the rest of the text (name, contact details, dates,
the tech and skill lists) is literal markup and does not change with the
language.

The model has five modules:

- `Optional`: the `string | null` answer of `getItem`.
- `Preferences`: the language and preference values and the stored
  strings. It holds, as pure functions, how a stored value is read back
  (including JavaScript truthiness for the theme), what the two `setItem` calls
  leave in the store, the class-list toggle, the two toggles and the language
  button's label.
- `Translations`: the two tables, kept as their language and their set of key
  paths (the phrases themselves are abstract). It also holds the selection of
  `t`, the navigation entries and the list of every path the component reads
  through `t`.
- `Session`: the page as a value (state, store, root classes). The write
  effect, the first commit and a click are functions here, and a session is
  a sequence of clicks. The lemmas cover any sequence of clicks and a reload.
- `App`: the class `PreferenceController`. Its fields `dark`, `lang`, `store`
  and `rootClasses` are changed in place by `Load`, `SetPrefs`, `WriteThrough`,
  `ToggleLang`, `ToggleTheme`, `Click` and `Mount`. Each method is proved
  against the `Session` and `Preferences` functions.

`Mount` follows React's effect order within one commit:

1. the load effect reads both keys;
2. the write effect of the same commit writes the defaults;
3. the state requested by the load effect is applied;
4. the write effect runs again only if that changed a dependency.

The load therefore always sees the store as it was before the page opened.

The component has exactly two languages and no browser-locale detection. It
sets no document `lang` attribute. It reads the stored values in an effect
after the first render, not while initialising its state, and it does not
guard its `localStorage` calls against exceptions.

## Model

| member | source | states |
|---|---|---|
| `Preferences.Get` | src/App.tsx:28-29 | `getItem` answers the stored string when the key is present and null otherwise |
| `Preferences.LangCode` | src/App.tsx:36 | the stored language string is `"fr"` exactly for French and `"en"` for English |
| `Preferences.LangCodeInjective` | src/App.tsx:31-36 | two languages have the same stored code exactly when they are the same language |
| `Preferences.ThemeValue` | src/App.tsx:35 | the stored theme string is `"dark"` exactly when the theme is dark, and `"light"` when it is light |
| `Preferences.LoadTheme` | src/App.tsx:28-30 | a null or empty stored theme leaves `dark` unchanged; any other stored string sets `dark` to whether it is exactly `"dark"`, so `"light"` or `"foo"` give light |
| `Preferences.LoadLang` | src/App.tsx:29-31 | the stored language is adopted exactly when it is the code of a language (`"fr"` or `"en"`); null or any other string keeps the current language |
| `Preferences.Loaded` | src/App.tsx:27-32 | the state the load effect requests: a truthy stored theme sets `dark` to whether it is exactly `"dark"`; a stored language code sets the language to that code's language; each preference is otherwise kept |
| `Preferences.Written` | src/App.tsx:35-36 | after the write the theme key holds the theme's string and the language key the language's code; every other key is as before, and the key set grows by at most these two |
| `Preferences.ToggleClass` | src/App.tsx:37 | after `classList.toggle('dark', on)` the class is present exactly when `on`, and every other class is unchanged |
| `Preferences.LoadAfterWrite` | src/App.tsx:27-36 | loading a store produced by the write gives back exactly the written theme and language, whatever state the load starts from and whatever else the store holds |
| `Preferences.LoadReflected` | src/App.tsx:27-38 | a store that holds the strings of some preferences loads back as those preferences |
| `Preferences.WriteOverwrites` | src/App.tsx:35-36 | a second write replaces the first entirely, so writing the same state twice is the same as writing it once |
| `Preferences.Other` | src/App.tsx:136 | the language the button switches to is never the current one (FR to EN, EN to FR) |
| `Preferences.OtherInvolution` | src/App.tsx:136 | switching the language twice gives back the language |
| `Preferences.ToggleLang` | src/App.tsx:136 | the language handler changes the language and leaves the theme as it was |
| `Preferences.ToggleTheme` | src/App.tsx:139 | the theme handler negates `dark` and leaves the language as it was |
| `Preferences.TogglesAreInvolutions` | src/App.tsx:136-139 | each handler applied twice is the identity on the preferences |
| `Preferences.ButtonLabel` | src/App.tsx:136-137 | the language button's label is the upper-case code of the language a click switches to (`"EN"` under French, `"FR"` under English) |
| `Translations.Select` | src/App.tsx:40 | `t` is the table of the active language; it is the French table exactly when the language is French and the English table exactly when it is English |
| `Translations.Lookup` | src/App.tsx:71-111 | a read `t.a.b` finds a phrase exactly when the table defines that path, and the phrase is in the table's own language (no mixing of languages) |
| `Translations.SameKeyStructure` | src/App.tsx:350-445 | `strings.fr` and `strings.en` define exactly the same key paths |
| `Translations.ReadsDefined` | src/App.tsx:71-283 | every path the component reads through `t` is a path of the French table |
| `Translations.LookupsSucceed` | src/App.tsx:40-283 | in either language every read through `t` finds a phrase, and that phrase is in the active language |
| `Translations.Nav` | src/App.tsx:105-111 | the navigation has one entry per section id, in the order projects, skills, experience, education, contact, each labelled by the lookup of that id under `nav` in the given table |
| `Translations.NavIsLanguageIndependent` | src/App.tsx:105-111 | in either language the navigation has the same five section ids in the same order, each labelled by the `nav` phrase of the active language |
| `Session.WriteEffect` | src/App.tsx:34-38 | the write effect keeps the state, leaves store and root class in step with it, and touches no other key or class |
| `Session.WriteEffectOnSynced` | src/App.tsx:34-38 | the write effect changes nothing when the store and the root already agree with the state |
| `Session.Mounted` | src/App.tsx:27-38 | after the first commit the state is what the load effect read from the store as it was before the page opened; the store and the root class agree with that state; no other key or class is touched |
| `Session.Boot` | src/App.tsx:24-38 | opening the page over a store adopts what the load reads from that store starting from dark and French; the store and root class then agree with that state, and no other key or class is touched |
| `Session.BootWithoutSavedPrefs` | src/App.tsx:24-38 | with neither key stored the page opens dark and in French, writes `"dark"` and `"fr"`, and sets the root's `dark` class |
| `Session.Toggle` | src/App.tsx:136-139 | the language button flips only the language, the theme button only the theme |
| `Session.Step` | src/App.tsx:136-139 | after a click and the write effect it triggers (lines 34-38) the state is toggled, the store and root class follow it, and no other key or class is touched |
| `Session.RunLang` | src/App.tsx:136 | after any sequence of clicks the language is flipped exactly when the language button was clicked an odd number of times |
| `Session.RunTheme` | src/App.tsx:139 | after any sequence of clicks the theme is negated exactly when the theme button was clicked an odd number of times |
| `Session.RunPrefs` | src/App.tsx:136-139 | after any sequence of clicks each preference is flipped exactly when its own button was clicked an odd number of times |
| `Session.RunStaysSynced` | src/App.tsx:34-38 | clicks keep the store and the root class in step with the state and never touch another key or class |
| `Session.ReloadRestores` | src/App.tsx:24-38 | reloading after any session of clicks comes back with the preferences the session ended with, and the reload ends with the store it started with |
| `App.PreferenceController.constructor` | src/App.tsx:24-25 | before any effect the state is dark and French, over the store and root classes the browser already had |
| `App.PreferenceController.Load` | src/App.tsx:27-32 | the load effect requests exactly the state `Loaded` computes from the store and the current state, and changes nothing |
| `App.PreferenceController.SetPrefs` | src/App.tsx:30-31 | applying the queued setter calls sets both preferences to the requested values |
| `App.PreferenceController.WriteThrough` | src/App.tsx:34-38 | the in-place writes produce exactly `WriteEffect` of the previous state, so store and root class agree with the state afterwards |
| `App.PreferenceController.ToggleLang` | src/App.tsx:136 | the language field becomes the other language |
| `App.PreferenceController.ToggleTheme` | src/App.tsx:139 | the theme field is negated |
| `App.PreferenceController.Click` | src/App.tsx:135-141 | a click followed by the write effect it triggers produces exactly `Step` of the previous state |
| `App.PreferenceController.Mount` | src/App.tsx:27-38 | running load, write, apply and the conditional second write in React's order produces exactly `Mounted` of the previous state |

## Left out

- `downloadCV` (src/App.tsx:46-68): it uses fetch, Blob, object URLs, anchor
  clicks and `window.location` navigation, which are browser I/O.
- The rendered markup, `SectionTitle`, `ProjectCard` and the animations
  (src/App.tsx:113-335) are presentation only. Of the markup, only the
  language button's label and the paths read through `t` are modelled.
- The translation phrases, the tech lists and links of `projects` and the
  item lists of `skills` (src/App.tsx:71-103) are literal data. Their reads
  through `t` are among the modelled paths.
- `src/components/ui/button.tsx`, `card.tsx` and `badge.tsx`, and
  `tailwind.config.cjs`, only compose class names and styling.
- `localStorage` failures are not modelled: the store is always available and
  `getItem`/`setItem` never throw. The code has no handling for a failure.
- React's scheduling is reduced to the order of the effects within a commit
  and to the rule that an effect re-runs when a dependency changed; batching
  and concurrent rendering are not modelled.
