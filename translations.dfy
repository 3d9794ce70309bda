/** The two string tables of the page (French and English) and the choice of
    the active one. The phrases themselves are not modelled: a table is its
    language and the set of key paths it defines, and looking up a path gives
    the abstract phrase that table holds there. */
module Translations {

  import opened Optional
  import opened Preferences

  /** A key path into a table, such as ["nav", "projects"] for `t.nav.projects`. */
  type KeyPath = seq<string>

  /** The phrase that the table of `lang` holds under `path`. */
  datatype Text = Phrase(lang: Lang, path: KeyPath)

  datatype Table = Table(lang: Lang, keys: set<KeyPath>)

  /** The key structure of `strings.fr`, in the order of its object literal. */
  const FrKeys: set<KeyPath> := {
    ["common", "liveDemo"], ["common", "intern"], ["common", "workTogether"],
    ["nav", "projects"], ["nav", "skills"], ["nav", "experience"], ["nav", "education"], ["nav", "contact"],
    ["hero", "badge"], ["hero", "title"], ["hero", "lead"], ["hero", "pitch"],
    ["cta", "viewProjects"], ["cta", "contact"], ["cta", "resume"],
    ["sections", "projects"], ["sections", "projectsSub"], ["sections", "skills"], ["sections", "skillsSub"],
    ["sections", "experience"], ["sections", "experienceSub"], ["sections", "education"],
    ["sections", "educationSub"], ["sections", "contact"], ["sections", "contactSub"], ["sections", "resume"],
    ["features", "booking"], ["features", "roles"], ["features", "dashboard"], ["features", "analytics"],
    ["features", "map"], ["features", "responsive"], ["features", "form"], ["features", "menu"],
    ["projects", "festival", "title"], ["projects", "festival", "role"], ["projects", "festival", "desc"],
    ["projects", "g6", "title"], ["projects", "g6", "role"], ["projects", "g6", "desc"],
    ["skills", "front"], ["skills", "back"], ["skills", "tools"], ["skills", "ci"],
    ["exp", "item1"], ["exp", "item2"], ["exp", "item3"],
    ["edu", "program"], ["edu", "details"],
    ["resume", "note"],
    ["footer", "made"]
  }

  /** The key structure of `strings.en`, in the order of its object literal. */
  const EnKeys: set<KeyPath> := {
    ["common", "liveDemo"], ["common", "intern"], ["common", "workTogether"],
    ["nav", "projects"], ["nav", "skills"], ["nav", "experience"], ["nav", "education"], ["nav", "contact"],
    ["hero", "badge"], ["hero", "title"], ["hero", "lead"], ["hero", "pitch"],
    ["cta", "viewProjects"], ["cta", "contact"], ["cta", "resume"],
    ["sections", "projects"], ["sections", "projectsSub"], ["sections", "skills"], ["sections", "skillsSub"],
    ["sections", "experience"], ["sections", "experienceSub"], ["sections", "education"],
    ["sections", "educationSub"], ["sections", "contact"], ["sections", "contactSub"], ["sections", "resume"],
    ["features", "booking"], ["features", "roles"], ["features", "dashboard"], ["features", "analytics"],
    ["features", "map"], ["features", "responsive"], ["features", "form"], ["features", "menu"],
    ["projects", "festival", "title"], ["projects", "festival", "role"], ["projects", "festival", "desc"],
    ["projects", "g6", "title"], ["projects", "g6", "role"], ["projects", "g6", "desc"],
    ["skills", "front"], ["skills", "back"], ["skills", "tools"], ["skills", "ci"],
    ["exp", "item1"], ["exp", "item2"], ["exp", "item3"],
    ["edu", "program"], ["edu", "details"],
    ["resume", "note"],
    ["footer", "made"]
  }

  const FrTable: Table := Table(FR, FrKeys)
  const EnTable: Table := Table(EN, EnKeys)

  /** The paths the component reads through `t`, region by region, in the
      order it reads them. Paths read twice appear twice. */
  const FestivalReads: seq<KeyPath> := [
    ["projects", "festival", "title"], ["projects", "festival", "role"], ["projects", "festival", "desc"],
    ["features", "booking"], ["features", "roles"], ["features", "dashboard"], ["features", "analytics"],
    ["features", "map"], ["common", "liveDemo"]
  ]
  const G6Reads: seq<KeyPath> := [
    ["projects", "g6", "title"], ["projects", "g6", "role"], ["projects", "g6", "desc"],
    ["features", "responsive"], ["features", "map"], ["features", "form"], ["features", "menu"],
    ["common", "liveDemo"]
  ]
  const SkillReads: seq<KeyPath> := [
    ["skills", "front"], ["skills", "back"], ["skills", "tools"], ["skills", "ci"]
  ]
  const NavReads: seq<KeyPath> := [
    ["nav", "projects"], ["nav", "skills"], ["nav", "experience"], ["nav", "education"], ["nav", "contact"]
  ]
  const HeroReads: seq<KeyPath> := [
    ["hero", "badge"], ["hero", "lead"], ["cta", "viewProjects"], ["cta", "contact"], ["cta", "resume"],
    ["hero", "title"], ["hero", "pitch"]
  ]
  const WorkReads: seq<KeyPath> := [
    ["sections", "projects"], ["sections", "projectsSub"], ["sections", "skills"], ["sections", "skillsSub"],
    ["sections", "experience"], ["sections", "experienceSub"], ["common", "intern"],
    ["exp", "item1"], ["exp", "item2"], ["exp", "item3"]
  ]
  const ContactReads: seq<KeyPath> := [
    ["sections", "education"], ["sections", "educationSub"], ["edu", "program"], ["edu", "details"],
    ["sections", "contact"], ["sections", "contactSub"], ["common", "workTogether"], ["cta", "resume"],
    ["sections", "resume"], ["resume", "note"], ["footer", "made"]
  ]

  /** Every path the component reads through `t`: the project list, the skill
      groups, the navigation, then the page from the hero down to the footer. */
  const UsedPaths: seq<KeyPath> :=
    FestivalReads + G6Reads + SkillReads + NavReads + HeroReads + WorkReads + ContactReads

  /** `t`: the French table when the language is French, the English one otherwise. */
  function Select(l: Lang): (t: Table)
    ensures t.lang == l
    ensures t == FrTable <==> l == FR
    ensures t == EnTable <==> l == EN
  {
    match l
    case FR => FrTable
    case EN => EnTable
  }

  /** A property access such as `t.nav.projects`: the phrase of the table's own
      language at that path, or nothing when the table has no such path. */
  function Lookup(t: Table, path: KeyPath): (r: Option<Text>)
    ensures r.Some? <==> path in t.keys
    ensures r.Some? ==> r.value.lang == t.lang && r.value.path == path
  {
    if path in t.keys then Some(Phrase(t.lang, path)) else None
  }

  /** The two tables define exactly the same key paths. */
  lemma SameKeyStructure()
    ensures FrTable.keys == EnTable.keys
  {
  }

  /** Every path the component reads is a path of the French table. */
  lemma ReadsDefined()
    ensures forall p :: p in UsedPaths ==> p in FrKeys
  {
  }

  /** Every read the component makes through `t` finds a phrase, whichever
      language is active, and that phrase is in the active language. */
  lemma LookupsSucceed(l: Lang)
    ensures forall p :: p in UsedPaths ==> Lookup(Select(l), p) == Some(Phrase(l, p))
  {
    ReadsDefined();
    SameKeyStructure();
  }

  /** The section ids of the navigation bar. */
  const NavIds: seq<string> := ["projects", "skills", "experience", "education", "contact"]

  datatype NavItem = NavItem(id: string, caption: Option<Text>)

  /** `nav`: one entry per section, labelled through the active table. */
  function Nav(t: Table): (r: seq<NavItem>)
    ensures |r| == |NavIds|
    ensures forall i :: 0 <= i < |r| ==> r[i].id == NavIds[i] && r[i].caption == Lookup(t, ["nav", NavIds[i]])
  {
    [ NavItem("projects", Lookup(t, ["nav", "projects"])),
      NavItem("skills", Lookup(t, ["nav", "skills"])),
      NavItem("experience", Lookup(t, ["nav", "experience"])),
      NavItem("education", Lookup(t, ["nav", "education"])),
      NavItem("contact", Lookup(t, ["nav", "contact"])) ]
  }

  /** Whatever the language, the navigation lists the same five section ids in
      the same order, each labelled by the `nav` phrase of that id in the
      active language. */
  lemma NavIsLanguageIndependent(l: Lang)
    ensures |Nav(Select(l))| == |NavIds|
    ensures forall i :: 0 <= i < |NavIds| ==>
      Nav(Select(l))[i].id == NavIds[i] && Nav(Select(l))[i].caption == Some(Phrase(l, ["nav", NavIds[i]]))
  {
  }
}
