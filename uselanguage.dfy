/**
 * The `useLanguage` hook (frontend/src/hooks/useLanguage.ts): the current
 * language starts as the stored one, `t` is its table, and toggling
 * switches between Chinese and English and writes the choice back.
 */
module UseLanguage {
  import Types
  import opened Storage
  import opened I18n

  /** `language === 'zh' ? 'en' : 'zh'`: any value other than `zh`, including
      an unchecked stored string, toggles to `zh`. */
  function Toggled(lang: string): (r: string)
    ensures r == "en" <==> lang == "zh"
    ensures r == "zh" <==> lang != "zh"
  {
    if lang == "zh" then "en" else "zh"
  }

  /** Toggling twice from either language code returns to it. */
  lemma ToggleTwice(lang: string)
    requires lang == "zh" || lang == "en"
    ensures Toggled(Toggled(lang)) == lang
  {
  }

  /** After a toggle there is always a table, even when the stored value
      named none. */
  lemma ToggledHasTable(lang: string)
    ensures Translations(Toggled(lang)).Some?
  {
  }

  /** The value a toggle writes is the value a later `getStoredLanguage`
      reads, so the hook and the store agree after every toggle. */
  lemma ToggleAgreesWithStore(items: map<string, string>, lang: string)
    ensures StoredLanguage(items[LanguageEntry := Toggled(lang)]) == Toggled(lang)
  {
    SetThenGetLanguage(items, Toggled(lang));
  }

  class LanguageHook {
    var language: string
    const store: LocalStorage

    /** `useState(getStoredLanguage)`. */
    constructor (store: LocalStorage)
      ensures this.store == store
      ensures language == StoredLanguage(store.items)
    {
      this.store := store;
      new;
      language := GetStoredLanguage(store);
    }

    /** `t = translations[language]`: the table of the current language, and
        none when the stored value is neither code. */
    function T(): (t: Types.Option<map<string, string>>)
      reads this
      ensures language == "zh" ==> t == Types.Some(ZhTable)
      ensures language == "en" ==> t == Types.Some(EnTable)
      ensures language != "zh" && language != "en" ==> t.None?
    {
      Translations(language)
    }

    /** `toggleLanguage()`: switch, then persist the new value. */
    method ToggleLanguage()
      modifies this, store
      ensures language == Toggled(old(language))
      ensures store.items == old(store.items)[LanguageEntry := language]
    {
      var next := Toggled(language);
      language := next;
      SetStoredLanguage(store, next);
    }
  }
}
