/**
 * The theme registry: the persisted active-theme id with its legacy-id
 * migration, the merge of built-in and custom themes, and the transitions that
 * set, save, delete, export and import themes.
 *
 * Local storage is two fields holding the persisted values; the JSON parser is
 * a parameter. A missing or falsy string property is the empty string.
 */
module Themes {
  import opened Common

  const DEFAULT_ID: string := "midnight"
  const LIGHT_ID: string := "sand"

  /** Ids of the built-in themes. */
  const BUILTIN_IDS: set<string> := {"midnight", "sand", "graphite", "ash", "noir", "aurora", "parchment"}

  /** Ids from earlier releases that are migrated on load. */
  const LEGACY_IDS: set<string> := {"default", "ocean", "forest", "sunset", "light"}

  /** A theme object: built-in, saved, or parsed from an import. */
  datatype Theme = Theme(
    id: string,
    name: string,
    description: Option<string>,
    vars: Option<map<string, string>>,
    bgImage: string,
    isCustom: bool)

  /** What `exportTheme` serialises: no id, and bgImage or null. */
  datatype Exported = Exported(
    name: string,
    description: Option<string>,
    vars: Option<map<string, string>>,
    bgImage: Option<string>)

  /** The outcome of a `localStorage.getItem` call. */
  datatype StorageRead = Missing | Stored(text: string) | ReadFailed

  /** The initial active id: legacy ids migrate, nothing usable means midnight. */
  function InitialThemeId(read: StorageRead): (id: string)
    ensures id !in LEGACY_IDS && id != ""
    ensures read == Stored("light") ==> id == LIGHT_ID
    ensures read.Stored? && read.text in LEGACY_IDS - {"light"} ==> id == DEFAULT_ID
    ensures read.Missing? || read.ReadFailed? || read == Stored("") ==> id == DEFAULT_ID
    ensures read.Stored? && read.text !in LEGACY_IDS && read.text != "" ==> id == read.text
  {
    match read
    case ReadFailed => DEFAULT_ID
    case Missing => DEFAULT_ID
    case Stored(s) =>
      if s == "default" || s == "ocean" || s == "forest" || s == "sunset" || s == "light" then
        (if s == "light" then LIGHT_ID else DEFAULT_ID)
      else if s == "" then DEFAULT_ID
      else s
  }

  /** Reading back a migrated id migrates nothing: the migration is idempotent. */
  lemma MigrationIdempotent(read: StorageRead)
    ensures InitialThemeId(Stored(InitialThemeId(read))) == InitialThemeId(read)
  {
  }

  /**
   * `loadCustomThemes`: a missing, empty, unparsable or unreadable entry
   * loads as the empty map; `parse` stands for `JSON.parse` (None when it throws).
   */
  function LoadCustomThemes(read: StorageRead, parse: string -> Option<map<string, Theme>>)
    : (m: map<string, Theme>)
    ensures read.Stored? && read.text != "" && parse(read.text).Some? ==> m == parse(read.text).value
    ensures !(read.Stored? && read.text != "" && parse(read.text).Some?) ==> m == map[]
  {
    match read
    case Stored(raw) =>
      if raw == "" then map[]
      else (match parse(raw) case Some(v) => v case None => map[])
    case _ => map[]
  }

  /** `{ ...THEMES, ...customThemes }`: a custom theme overrides a built-in with the same id. */
  function AllThemes(builtins: map<string, Theme>, custom: map<string, Theme>): (all: map<string, Theme>)
    ensures all.Keys == builtins.Keys + custom.Keys
    ensures forall id :: id in custom ==> all[id] == custom[id]
    ensures forall id :: id in builtins && id !in custom ==> all[id] == builtins[id]
  {
    builtins + custom
  }

  /** The active theme: the merged entry for `id`, else the midnight built-in. */
  function ResolveTheme(builtins: map<string, Theme>, custom: map<string, Theme>, id: string): (t: Theme)
    requires DEFAULT_ID in builtins
    ensures id in custom ==> t == custom[id]
    ensures id !in custom && id in builtins ==> t == builtins[id]
    ensures id !in custom && id !in builtins ==> t == builtins[DEFAULT_ID]
  {
    var all := AllThemes(builtins, custom);
    if id in all then all[id] else builtins[DEFAULT_ID]
  }

  /** `exportTheme`: null for an unknown id, else the portable fields without the id. */
  function ExportTheme(all: map<string, Theme>, id: string): (e: Option<Exported>)
    ensures e.None? <==> id !in all
    ensures e.Some? ==> e.value.name == all[id].name && e.value.description == all[id].description
                        && e.value.vars == all[id].vars
    ensures e.Some? ==> (e.value.bgImage.None? <==> all[id].bgImage == "")
    ensures e.Some? && e.value.bgImage.Some? ==> e.value.bgImage.value == all[id].bgImage
  {
    if id !in all then None
    else
      var t := all[id];
      Some(Exported(t.name, t.description, t.vars, if t.bgImage == "" then None else Some(t.bgImage)))
  }

  /** The object `JSON.parse` returns for an exported theme's text. */
  function ReadExported(e: Exported): (t: Theme)
    ensures t.id == "" && t.name == e.name && t.vars == e.vars && !t.isCustom
  {
    Theme("", e.name, e.description, e.vars, if e.bgImage.Some? then e.bgImage.value else "", false)
  }

  /** `importTheme`'s validity test: a name and a vars object are required. */
  predicate Importable(data: Theme)
  {
    data.name != "" && data.vars.Some?
  }

  /** The id a saved theme is stored under: its own, else `custom-<now>`. */
  function SaveId(data: Theme, now: nat): (id: string)
    ensures data.id != "" ==> id == data.id
    ensures data.id == "" ==> id == "custom-" + NatToString(now)
    ensures id != ""
  {
    if data.id != "" then data.id else "custom-" + NatToString(now)
  }

  /** `{ ...themeData, id, isCustom: true }`. */
  function Stamped(data: Theme, id: string): (t: Theme)
    ensures t.id == id && t.isCustom
    ensures t.name == data.name && t.description == data.description
            && t.vars == data.vars && t.bgImage == data.bgImage
  {
    data.(id := id, isCustom := true)
  }

  /**
   * Exporting a theme and importing the text back yields a custom theme with
   * the same name, description, variables and background image under a fresh id.
   */
  lemma ExportImportRoundTrip(all: map<string, Theme>, id: string, now: nat)
    requires id in all && Importable(all[id])
    ensures ExportTheme(all, id).Some?
    ensures var data := ReadExported(ExportTheme(all, id).value);
      && Importable(data)
      && SaveId(data, now) == "custom-" + NatToString(now)
      && var t := Stamped(data, SaveId(data, now));
         t.name == all[id].name && t.description == all[id].description
         && t.vars == all[id].vars && t.bgImage == all[id].bgImage && t.isCustom
  {
  }

  /** Deleting a custom theme that shadowed a built-in brings the built-in back. */
  lemma DeleteUncoversBuiltin(builtins: map<string, Theme>, custom: map<string, Theme>, id: string)
    requires DEFAULT_ID in builtins && id in builtins
    ensures ResolveTheme(builtins, custom - {id}, id) == builtins[id]
    ensures forall k :: k != id ==>
      ResolveTheme(builtins, custom - {id}, k) == ResolveTheme(builtins, custom, k)
  {
  }

  /** The theme provider's state and the two storage entries it writes. */
  class ThemeStore {
    const builtins: map<string, Theme>
    var themeId: string
    var customThemes: map<string, Theme>
    /** The persisted active id (absent until first written or read). */
    var storedId: Option<string>
    /** The persisted custom-theme map. */
    var storedCustom: Option<map<string, Theme>>

    ghost predicate Valid()
      reads this
    {
      DEFAULT_ID in builtins
    }

    function All(): (all: map<string, Theme>)
      reads this
      ensures all == AllThemes(builtins, customThemes)
    {
      builtins + customThemes
    }

    /** The theme applied to the document. */
    function Current(): (t: Theme)
      reads this
      requires Valid()
      ensures t == ResolveTheme(builtins, customThemes, themeId)
    {
      var all := builtins + customThemes;
      if themeId in all then all[themeId] else builtins[DEFAULT_ID]
    }

    constructor (builtins: map<string, Theme>, idRead: StorageRead, customRead: StorageRead,
                 parse: string -> Option<map<string, Theme>>)
      requires DEFAULT_ID in builtins
      ensures Valid() && this.builtins == builtins
      ensures themeId == InitialThemeId(idRead)
      ensures customThemes == LoadCustomThemes(customRead, parse)
      ensures storedId == (if idRead.Stored? then Some(idRead.text) else None)
      ensures storedCustom == (if customRead.Stored? then parse(customRead.text) else None)
    {
      this.builtins := builtins;
      themeId := InitialThemeId(idRead);
      customThemes := LoadCustomThemes(customRead, parse);
      storedId := if idRead.Stored? then Some(idRead.text) else None;
      storedCustom := if customRead.Stored? then parse(customRead.text) else None;
    }

    /** `setTheme`: an id missing from the merged map changes nothing. */
    method SetTheme(id: string)
      requires Valid()
      modifies this
      ensures Valid() && customThemes == old(customThemes) && storedCustom == old(storedCustom)
      ensures id !in old(All()) ==> themeId == old(themeId) && storedId == old(storedId)
      ensures id in old(All()) ==> themeId == id && storedId == Some(id) && Current() == All()[id]
    {
      if id !in builtins + customThemes {
        return;
      }
      themeId := id;
      storedId := Some(id);
    }

    /** `saveCustomTheme`: store, persist and activate; every other entry is kept. */
    method SaveCustomTheme(data: Theme, now: nat) returns (id: string)
      requires Valid()
      modifies this
      ensures Valid() && id == SaveId(data, now)
      ensures customThemes == old(customThemes)[id := Stamped(data, id)]
      ensures storedCustom == Some(customThemes)
      ensures themeId == id && storedId == Some(id)
      ensures Current() == Stamped(data, id)
      ensures forall k :: k != id ==> (k in customThemes <==> k in old(customThemes))
      ensures forall k :: k != id && k in customThemes ==> customThemes[k] == old(customThemes)[k]
    {
      id := if data.id != "" then data.id else "custom-" + NatToString(now);
      var newTheme := data.(id := id, isCustom := true);
      customThemes := customThemes[id := newTheme];
      storedCustom := Some(customThemes);
      themeId := id;
      storedId := Some(id);
    }

    /**
     * `deleteCustomTheme`: remove the key and persist; the active id falls back
     * to midnight only when it was the deleted id (built-in ids included).
     */
    method DeleteCustomTheme(id: string)
      requires Valid()
      modifies this
      ensures Valid() && customThemes == old(customThemes) - {id}
      ensures storedCustom == Some(customThemes)
      ensures old(themeId) == id ==> themeId == DEFAULT_ID && storedId == Some(DEFAULT_ID)
      ensures old(themeId) != id ==> themeId == old(themeId) && storedId == old(storedId)
    {
      customThemes := customThemes - {id};
      storedCustom := Some(customThemes);
      if themeId == id {
        themeId := DEFAULT_ID;
        storedId := Some(DEFAULT_ID);
      }
    }

    /**
     * `importTheme`: `parsed` is what `JSON.parse` made of the text (None when
     * it threw). An unparsable or incomplete theme yields null and changes nothing.
     */
    method ImportTheme(parsed: Option<Theme>, now: nat) returns (id: Option<string>)
      requires Valid()
      modifies this
      ensures Valid()
      ensures id.None? <==> !(parsed.Some? && Importable(parsed.value))
      ensures id.None? ==> themeId == old(themeId) && customThemes == old(customThemes)
                           && storedId == old(storedId) && storedCustom == old(storedCustom)
      ensures id.Some? ==> id.value == SaveId(parsed.value, now) && themeId == id.value
                           && customThemes == old(customThemes)[id.value := Stamped(parsed.value, id.value)]
                           && storedCustom == Some(customThemes) && storedId == Some(id.value)
                           && Current() == Stamped(parsed.value, id.value)
    {
      if parsed.None? {
        return None;
      }
      var data := parsed.value;
      if data.name == "" || data.vars.None? {
        return None;
      }
      var saved := SaveCustomTheme(data, now);
      id := Some(saved);
    }
  }
}
