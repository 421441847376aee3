/**
 * The site's language context: the chosen language (English at first), the
 * three languages offered, the lookup `t(key)` with its fallback from the
 * chosen language to English to the key itself, and the hook that refuses to
 * work outside the provider. The translation tables are a parameter.
 */
module Language {
  import opened Base

  /** One language's texts, by key. */
  type Table = map<string, string>

  /** All tables, by language code. */
  type Translations = map<string, Table>

  datatype LanguageInfo = LanguageInfo(name: string, displayName: string)

  const AvailableLanguages: map<string, LanguageInfo> := map[
    "en" := LanguageInfo("English", "English (US)"),
    "hi" := LanguageInfo("Hindi", "हिंदी (Hindi)"),
    "mr" := LanguageInfo("Marathi", "मराठी (Marathi)")
  ]

  const English: string := "en"

  /** The languages on offer are exactly English, Hindi and Marathi. */
  lemma OfferedLanguages()
    ensures AvailableLanguages.Keys == {"en", "hi", "mr"}
  {
  }

  /** `table[key]`, with a missing key read as the empty text (both are falsy). */
  function Text(table: Table, key: string): string {
    if key in table then table[key] else ""
  }

  const MissingTableError: string := "TypeError: translation table is undefined"

  /**
   * `translations[language][key] || translations['en'][key] || key`. Reading
   * a key of a table that does not exist throws, which is the Err case.
   */
  function Translate(translations: Translations, language: string, key: string): (r: Result<string>)
    ensures language !in translations ==> r.Err?
    ensures language in translations && English in translations ==> r.Ok?
  {
    if language !in translations then Err(MissingTableError)
    else
      var own := Text(translations[language], key);
      if own != "" then Ok(own)
      else if English !in translations then Err(MissingTableError)
      else
        var english := Text(translations[English], key);
        if english != "" then Ok(english) else Ok(key)
  }

  /**
   * The fallback chain: the chosen language's text when it has one, else the
   * English text when that exists, else the key; never empty for a non-empty key.
   */
  lemma TranslateFallback(translations: Translations, language: string, key: string)
    requires language in translations && English in translations
    ensures var r := Translate(translations, language, key).value;
      && (Text(translations[language], key) != "" ==> r == Text(translations[language], key))
      && (Text(translations[language], key) == "" && Text(translations[English], key) != "" ==> r == Text(translations[English], key))
      && (Text(translations[language], key) == "" && Text(translations[English], key) == "" ==> r == key)
      && (key != "" ==> r != "")
  {
  }

  /** A text missing from the chosen language is never shown as a blank: some text is there. */
  lemma TranslateNeverBlank(translations: Translations, language: string, key: string)
    requires language in translations && English in translations
    requires key != ""
    ensures Translate(translations, language, key).value in {Text(translations[language], key), Text(translations[English], key), key}
    ensures Translate(translations, language, key).value != ""
  {
  }

  class LanguageProvider {
    var language: string

    constructor ()
      ensures language == English
    {
      language := English;
    }

    method SetLanguage(newLanguage: string)
      modifies this
      ensures language == newLanguage
    {
      language := newLanguage;
    }

    /** `t(key)` in the current language. */
    function T(translations: Translations, key: string): (r: Result<string>)
      reads this
      ensures language in translations && English in translations ==> r.Ok?
    {
      Translate(translations, language, key)
    }
  }

  const OutsideProviderError: string := "useLanguage must be used within a LanguageProvider"

  /** useLanguage: the nearest provider, or the error when there is none. */
  function UseLanguage(context: Option<LanguageProvider>): (r: Result<LanguageProvider>)
    ensures r.Err? <==> context.None?
    ensures r.Err? ==> r.message == OutsideProviderError
    ensures r.Ok? ==> r.value == context.value
  {
    match context
    case None => Err(OutsideProviderError)
    case Some(provider) => Ok(provider)
  }
}
