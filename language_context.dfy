/** The language context of the application: the provider's state (the
    active language), its load and switch effects, and `t`, with the
    lookups of a few concrete keys worked out. */
module LanguageContext {
  import opened Types
  import opened Text
  import opened Language
  import opened Messages

  /** The provider's state: the active language. */
  class LanguageProvider {
    var language: Lang

    /** The language starts as English. */
    constructor ()
      ensures language == En
    {
      language := En;
    }

    /** The load effect: a stored preference is adopted only when it is
        exactly "en" or "tr"; otherwise the language is left as it is. */
    method LoadSavedPreference(stored: Option<string>)
      modifies this
      ensures ParseLanguage(stored).Some? ==> language == ParseLanguage(stored).value
      ensures ParseLanguage(stored).None? ==> language == old(language)
    {
      if stored == Some("en") || stored == Some("tr") {
        language := if stored.value == "en" then En else Tr;
      }
    }

    /** Switches the language and returns the code written to storage. */
    method SetLanguage(lang: Lang) returns (stored: string)
      modifies this
      ensures language == lang
      ensures stored == LanguageCode(lang)
    {
      language := lang;
      stored := LanguageCode(lang);
    }

    /** `t(key)` in the active language. */
    method T(key: string) returns (r: string)
      ensures r == Translate(language, key)
    {
      r := LookupKey(Translations(language), key);
    }
  }
  /** The `common` section of each language. */
  lemma EnCommonSection()
    ensures Section(En, "common") == EnCommon()
  {
  }

  lemma TrCommonSection()
    ensures Section(Tr, "common") == TrCommon()
  {
  }

  lemma BackEntries()
    ensures Walk(EnCommon(), ["back"]) == Some(Leaf("Back"))
    ensures Walk(TrCommon(), ["back"]) == Some(Leaf("Geri"))
  {
  }

  /** In the `common` section, `back` is "Back" in English and "Geri" in
      Turkish; with the `common` entry of the root table this is the
      lookup of `common.back`. */
  lemma CommonBack()
    ensures Walk(Section(En, "common"), ["back"]) == Some(Leaf("Back"))
    ensures Walk(Section(Tr, "common"), ["back"]) == Some(Leaf("Geri"))
  {
    EnCommonSection();
    TrCommonSection();
    BackEntries();
  }

  /** `back` in the `common` section is a string, so a path that goes on
      past it (`common.back.x`) is missing. */
  lemma {:induction false} PastLeafInCommon()
    ensures Walk(EnCommon(), ["back", "x"]).None?
    ensures Walk(TrCommon(), ["back", "x"]).None?
  {
    BackEntries();
    WalkPastLeaf(EnCommon(), ["back"], ["x"], "Back");
    WalkPastLeaf(TrCommon(), ["back"], ["x"], "Geri");
    assert ["back"] + ["x"] == ["back", "x"];
  }
}
