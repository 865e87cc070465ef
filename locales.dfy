/**
 * Turning the raw `locale` text of the configuration into a java.util.Locale
 * (LocaleHelper.initLocaleFromTargetPlugin, the split at the first underscore).
 */
module Locales {
  import opened Wrappers
  import opened JavaText

  /**
   * A java.util.Locale, by the constructor that built it. The constructors
   * are not interpreted: `ForLanguageTag(t)` is `Locale.forLanguageTag(t)`
   * and `WithCountry(l, c)` is `new Locale(l, c)`. Neither throws for
   * non-null arguments, so building a locale never fails.
   */
  datatype Locale =
    | ForLanguageTag(tag: string)
    | WithCountry(language: string, country: string)

  /** The configuration token a locale was built from: `tag`, or `language_country`. */
  function Token(l: Locale): string {
    match l
    case ForLanguageTag(tag) => tag
    case WithCountry(language, country) => language + "_" + country
  }

  /**
   * The split at the first underscore, as written: the language is the text
   * before it, the country everything after it (possibly empty, possibly
   * holding further underscores). The country is never null, so the
   * language-tag branch for a missing country is never taken. Without an
   * underscore the whole, untrimmed text is a language tag.
   */
  function LocaleFromRaw(raw: string): (r: Locale)
    ensures '_' !in raw ==> r == ForLanguageTag(raw)
    ensures '_' in raw ==> r.WithCountry? && '_' !in r.language
    ensures Token(r) == raw
  {
    if '_' in raw then
      var language := raw[..IndexOf(raw, '_')];
      var country: Option<string> := if |raw| > |language| then Some(raw[|language| + 1..]) else None;
      if country.None? then ForLanguageTag(language)
      else
        assert raw == language + "_" + country.value;
        WithCountry(language, country.value)
    else ForLanguageTag(raw)
  }

  /** Every `language_country` token whose language has no underscore splits back into exactly those two parts. */
  lemma {:induction false} TwoPartToken(language: string, country: string)
    requires '_' !in language
    ensures LocaleFromRaw(language + "_" + country) == WithCountry(language, country)
  {
    var raw := language + "_" + country;
    assert raw[..|language|] == language;
    assert raw[|language|] == '_';
    assert raw[..|language| + 1] == language + "_";
    var i := IndexOf(raw, '_');
    assert i == |language|;
    assert raw[|language| + 1..] == country;
  }

  /** A token may carry any number of further underscores: they all end up in the country. */
  lemma ExtraUnderscoresStayInCountry()
    ensures LocaleFromRaw("en_US_extra") == WithCountry("en", "US_extra")
  {
    assert "en_US_extra" == "en" + "_" + "US_extra";
    TwoPartToken("en", "US_extra");
  }
}
