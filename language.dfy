/**
 * The language provider: the current language and text direction, the
 * translation lookup `t`, the preference restored from and saved to local
 * storage, and the header's language toggle.
 */
module Language {
  import opened Js
  import opened Browser

  /** A translation table per language. */
  type Tables = map<string, map<string, string>>

  /** A few entries of the two tables; the full tables are data, not logic. */
  const Translations: Tables := map[
    "ar" := map["nav.home" := "الرئيسية", "admin.dashboard" := "لوحة التحكم", "admin.addProduct" := "إضافة منتج"],
    "en" := map["nav.home" := "Home", "admin.dashboard" := "Dashboard", "admin.addProduct" := "Add Product"]
  ]

  const StorageKey: string := "language"

  /** The direction derived from a language: right-to-left for Arabic only. */
  function Dir(language: string): (d: string)
    ensures d == "rtl" <==> language == "ar"
    ensures d == "rtl" || d == "ltr"
  {
    if language == "ar" then "rtl" else "ltr"
  }

  /**
   * `t(key)`: `translations[language][key] || key`. `None` stands for the
   * TypeError thrown when the language has no table at all.
   */
  function T(tables: Tables, language: string, key: string): (r: Option<string>)
    ensures r.None? <==> language !in tables
    ensures r.Some? && key in tables[language] && tables[language][key] != "" ==> r.value == tables[language][key]
    ensures r.Some? && (key !in tables[language] || tables[language][key] == "") ==> r.value == key
  {
    if language !in tables then None
    else Some(OrElse(if key in tables[language] then Some(tables[language][key]) else None, key))
  }

  /** Both languages the site offers have a table, so `t` never throws for them, and a missing key shows the key itself. */
  lemma LookupTotalForSiteLanguages(key: string)
    ensures T(Translations, "ar", key).Some? && T(Translations, "en", key).Some?
    ensures key !in Translations["en"] ==> T(Translations, "en", key) == Some(key)
  {
  }

  /** Sample entries: the dashboard title in each language, and a key neither table holds, shown as itself. */
  lemma SampleLookups()
    ensures T(Translations, "en", "admin.dashboard") == Some("Dashboard")
    ensures T(Translations, "ar", "admin.dashboard") == Some("لوحة التحكم")
    ensures T(Translations, "ar", "admin.addProduct") == Some("إضافة منتج")
    ensures T(Translations, "ar", "admin.unknown") == Some("admin.unknown")
  {
  }

  /**
   * The names every object literal inherits from `Object.prototype`. Indexing
   * the tables with one of them finds an inherited member instead of nothing,
   * which this model of the tables as a map does not cover.
   */
  predicate InheritedName(s: string)
  {
    s in {"constructor", "__proto__", "toString", "toLocaleString", "valueOf", "hasOwnProperty",
          "isPrototypeOf", "propertyIsEnumerable", "__defineGetter__", "__defineSetter__",
          "__lookupGetter__", "__lookupSetter__"}
  }

  /**
   * A stored preference other than the two languages (and other than an
   * inherited member name) is adopted as is, and every lookup then throws.
   */
  lemma UncheckedPreferenceBreaksLookup(saved: string, key: string)
    requires saved != "ar" && saved != "en" && !InheritedName(saved)
    ensures T(Translations, saved, key).None?
  {
  }

  /** The header toggle: Arabic switches to English, anything else to Arabic. */
  function Toggle(language: string): (r: string)
    ensures language == "ar" ==> r == "en"
    ensures language != "ar" ==> r == "ar"
  {
    if language == "ar" then "en" else "ar"
  }

  /** Two toggles restore either site language, and flip the direction twice. */
  lemma ToggleTwice(language: string)
    requires language == "ar" || language == "en"
    ensures Toggle(Toggle(language)) == language
    ensures Dir(Toggle(language)) != Dir(language)
  {
  }

  class LanguageProvider {
    var language: string
    var dir: string
    /** The `lang` and `dir` attributes last written to the document element. */
    var htmlLang: string
    var htmlDir: string

    constructor ()
      ensures language == "ar" && dir == "rtl" && dir == Dir(language)
    {
      language, dir := "ar", "rtl";
      htmlLang, htmlDir := "", "";
    }

    /**
     * One run of the synchronising effect: derive the direction, write the
     * document attributes (the direction as it was before this run) and
     * save the language.
     */
    method Sync(storage: LocalStorage)
      modifies this`dir, this`htmlLang, this`htmlDir, storage
      ensures dir == Dir(language) && htmlLang == language && htmlDir == old(dir)
      ensures storage.items == old(storage.items)[StorageKey := language]
    {
      var previous := dir;
      dir := Dir(language);
      htmlLang := language;
      htmlDir := previous;
      storage.SetItem(StorageKey, language);
    }

    /**
     * The effect re-runs while its dependencies change: once more when the
     * first run changed the direction. After that the document carries the
     * derived direction.
     */
    method Settle(storage: LocalStorage)
      modifies this`dir, this`htmlLang, this`htmlDir, storage
      ensures dir == Dir(language) && htmlDir == dir && htmlLang == language
      ensures storage.items == old(storage.items)[StorageKey := language]
    {
      var before := dir;
      Sync(storage);
      if dir != before {
        Sync(storage);
      }
    }

    /** `setLanguage`, followed by the effects it triggers. */
    method SetLanguage(storage: LocalStorage, next: string)
      modifies this, storage
      ensures language == next && dir == Dir(next) && htmlDir == dir
      ensures storage.items == old(storage.items)[StorageKey := next]
    {
      language := next;
      Settle(storage);
    }

    /**
     * Mounting: the saved preference is read first; the synchronising effect
     * then saves the default, and a truthy saved preference replaces it.
     */
    method Mount(storage: LocalStorage)
      modifies this, storage
      ensures var saved := old(storage.GetItem(StorageKey));
              language == (if StringTruthy(saved) then saved.value else old(language))
      ensures dir == Dir(language) && htmlDir == dir
      ensures storage.items == old(storage.items)[StorageKey := language]
    {
      var saved := storage.GetItem(StorageKey);
      Settle(storage);
      if StringTruthy(saved) {
        SetLanguage(storage, saved.value);
      }
    }

    /** The header button. */
    method ToggleLanguage(storage: LocalStorage)
      modifies this, storage
      ensures language == Toggle(old(language)) && dir == Dir(language)
      ensures storage.items == old(storage.items)[StorageKey := language]
    {
      SetLanguage(storage, Toggle(language));
    }
  }
}
