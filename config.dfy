/**
 * The manager's configuration and the pure rules read from it:
 * key validation, version coercion and the locale-to-language table.
 */
module RecaptchaConfig {
  import opened Wrappers
  import opened Php

  /**
   * The configuration keys the manager reads. `version` is the value after
   * PHP's `(int)` cast and `locale` the value after `(string)`; `None` (and
   * `Null`) stands for a key that is absent or null, which selects the default.
   */
  datatype Config = Config(
    version: Option<int>,
    siteKey: Option<string>,
    secretKey: Option<string>,
    locale: Option<string>,
    debug: PhpValue,
    autoloader: PhpValue)

  /** The two configuration exceptions, one per missing key. */
  datatype ConfigError = SiteKeyMissing | SecretKeyMissing

  /** The configuration holds a usable pair of keys. */
  predicate KeysPresent(cfg: Config)
  {
    Truthy(cfg.siteKey) && Truthy(cfg.secretKey)
  }

  /**
   * checkConfig: the site key is checked first, then the secret key; the
   * call returns normally only when both are truthy.
   */
  function CheckConfig(cfg: Config): (r: Outcome<ConfigError>)
    ensures r.Pass? <==> KeysPresent(cfg)
    ensures r == Fail(SiteKeyMissing) <==> !Truthy(cfg.siteKey)
    ensures r == Fail(SecretKeyMissing) <==> Truthy(cfg.siteKey) && !Truthy(cfg.secretKey)
  {
    if !Truthy(cfg.siteKey) then Fail(SiteKeyMissing)
    else if !Truthy(cfg.secretKey) then Fail(SecretKeyMissing)
    else Pass
  }

  /** The site-key error wins whatever the secret key is. */
  lemma SiteKeyErrorFirst(cfg: Config, secret: Option<string>)
    requires !Truthy(cfg.siteKey)
    ensures CheckConfig(cfg.(secretKey := secret)) == Fail(SiteKeyMissing)
  {
  }

  /** getVersion: 2 and 3 are kept, anything else (and an unset version) becomes 3. */
  function VersionOf(version: Option<int>): (v: int)
    ensures v == 2 || v == 3
    ensures version.Some? && (version.value == 2 || version.value == 3) ==> v == version.value
    ensures version.Some? && version.value == 2 <==> v == 2
  {
    var n := if version.Some? then version.value else 3;
    if n == 2 || n == 3 then n else 3
  }

  /** The theme every version-2 widget is rendered with. */
  const Theme: string := "light"

  /** The locale used when none is configured. */
  const DefaultLocale: string := "en_US"

  /** The Spanish-American locales that share the code `es-419`. */
  const LatinAmericanSpanish: set<string> :=
    {"es_AR", "es_CL", "es_CO", "es_MX", "es_PE", "es_PR", "es_VE"}

  /** Locales whose language code differs from the locale itself. */
  const LanguageOverrides: map<string, string> :=
    map["zh_CN" := "zh-CN", "zh_TW" := "zh-TW", "en_GB" := "en-GB",
        "fr_CA" := "fr-CA", "de_AT" := "de-AT", "de_CH" := "de-CH",
        "pt_BR" := "pt-BR", "pt_PT" := "pt-PT",
        "es_AR" := "es-419", "es_CL" := "es-419", "es_CO" := "es-419", "es_MX" := "es-419",
        "es_PE" := "es-419", "es_PR" := "es-419", "es_VE" := "es-419"]

  /**
   * getLanguage: a table lookup; any other locale falls through to
   * `explode("_", $locale, 1)`, whose single element is the whole locale.
   */
  function LanguageOf(locale: Option<string>): (lang: string)
    ensures var l := if locale.Some? then locale.value else DefaultLocale;
      (l in LatinAmericanSpanish ==> lang == "es-419") &&
      (l !in LanguageOverrides.Keys ==> lang == l)
  {
    var l := if locale.Some? then locale.value else DefaultLocale;
    if l in LanguageOverrides then LanguageOverrides[l] else l
  }

  /** The eight locales with a regional code map to it. */
  lemma LanguageRegionalCodes()
    ensures LanguageOf(Some("zh_CN")) == "zh-CN" && LanguageOf(Some("zh_TW")) == "zh-TW"
    ensures LanguageOf(Some("en_GB")) == "en-GB" && LanguageOf(Some("fr_CA")) == "fr-CA"
    ensures LanguageOf(Some("de_AT")) == "de-AT" && LanguageOf(Some("de_CH")) == "de-CH"
    ensures LanguageOf(Some("pt_BR")) == "pt-BR" && LanguageOf(Some("pt_PT")) == "pt-PT"
  {
  }

  /** The Spanish-American locales share `es-419`; every locale outside the table is returned as it is. */
  lemma LanguageGroupsAndFallback()
    ensures forall l | l in LatinAmericanSpanish :: LanguageOf(Some(l)) == "es-419"
    ensures forall l | l !in LanguageOverrides :: LanguageOf(Some(l)) == l
  {
  }

  /**
   * The fallback keeps the whole locale: an unlisted `xx_YY` locale is not cut
   * at its underscore, and the default locale yields `en_US`, not `en`.
   */
  lemma LanguageFallbackKeepsLocale()
    ensures LanguageOf(None) == "en_US"
    ensures LanguageOf(Some("en_US")) == "en_US" != "en"
    ensures LanguageOf(Some("fr_FR")) == "fr_FR"
  {
    assert "en_US" !in LanguageOverrides;
    assert "fr_FR" !in LanguageOverrides;
  }
}
