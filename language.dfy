/** The translation tables of app/language.py and the module-level lookup
    `_` that goes through a registered manager. */
module Language {

  /** What `load_language` finds in languages/<code>.json. */
  datatype LanguageFile = Unparsable | Table(entries: map<string, string>)

  /** The languages directory, by language code; a code without an entry has
      no file. */
  type LanguageDir = map<string, LanguageFile>

  const DefaultLanguage: string := "zh_TW"

  /** The table `load_language(code)` would install, if any. */
  predicate Loadable(dir: LanguageDir, code: string) {
    code in dir && dir[code].Table?
  }

  class LanguageManager {
    var currentLanguage: string
    var translations: map<string, string>

    /** `__init__`: an empty table for "zh_TW", then `load_language("zh_TW")`. */
    constructor (dir: LanguageDir)
      ensures currentLanguage == DefaultLanguage
      ensures Loadable(dir, DefaultLanguage) ==> translations == dir[DefaultLanguage].entries
      ensures !Loadable(dir, DefaultLanguage) ==> translations == map[]
    {
      currentLanguage := DefaultLanguage;
      translations := map[];
      new;
      LoadLanguage(DefaultLanguage, dir);
    }

    /** `load_language`: on success the table is replaced wholesale and `code`
        becomes current; a missing or unparsable file changes nothing. */
    method LoadLanguage(code: string, dir: LanguageDir)
      modifies this
      ensures Loadable(dir, code) ==>
        translations == dir[code].entries && currentLanguage == code
      ensures !Loadable(dir, code) ==>
        translations == old(translations) && currentLanguage == old(currentLanguage)
    {
      if code !in dir {
        return;
      }
      match dir[code] {
        case Unparsable =>
          return;
        case Table(data) =>
          translations := data;
          currentLanguage := code;
      }
    }

    /** `set_language`: the same as `load_language`. */
    method SetLanguage(code: string, dir: LanguageDir)
      modifies this
      ensures Loadable(dir, code) ==>
        translations == dir[code].entries && currentLanguage == code
      ensures !Loadable(dir, code) ==>
        translations == old(translations) && currentLanguage == old(currentLanguage)
    {
      LoadLanguage(code, dir);
    }

    /** `translate`: the table's entry for `key`, or `key` itself when the
        table has none. */
    function Translate(key: string): (r: string)
      reads this
      ensures key in translations ==> r == translations[key]
      ensures key !in translations ==> r == key
    {
      if key in translations then translations[key] else key
    }
  }

  /** The module global `_lang_mgr_ref` and the lookup `_` that reads it. */
  class Registry {
    var manager: LanguageManager?

    constructor ()
      ensures manager == null
    {
      manager := null;
    }

    /** `init_language_manager`: later lookups go through `mgr`. */
    method InitLanguageManager(mgr: LanguageManager)
      modifies this
      ensures manager == mgr
    {
      manager := mgr;
    }

    /** `_`: the key unchanged when no manager is registered, otherwise the
        registered manager's translation. */
    function Gettext(key: string): (r: string)
      reads this, manager
      ensures manager == null ==> r == key
      ensures manager != null ==> r == manager.Translate(key)
    {
      if manager == null then key else manager.Translate(key)
    }
  }

  /** Once a manager that has loaded a language is registered, `_` answers
      from that language's table, falling back to the key. */
  method RegisterAndTranslate(reg: Registry, mgr: LanguageManager, code: string, dir: LanguageDir, key: string)
    returns (r: string)
    requires Loadable(dir, code)
    modifies reg, mgr
    ensures r == if key in dir[code].entries then dir[code].entries[key] else key
  {
    mgr.LoadLanguage(code, dir);
    reg.InitLanguageManager(mgr);
    r := reg.Gettext(key);
  }
}
