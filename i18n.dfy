/**
 * Locale selection (src/lib/i18n/i18n.svelte.ts): `detectLanguage` over the
 * saved preference and the browser languages, and the `I18n` store with its
 * lazy initialisation, `setLocale` and the dictionary getter. The two
 * dictionaries are opaque values: the locale files are not part of this
 * model.
 */
module Locales {
  import opened Wrappers
  import opened JsString

  datatype Locale = PtBR | EnUS

  /** The two dictionaries of `locales`. */
  datatype Dictionary = PtBRDictionary | EnUSDictionary

  function LocaleCode(l: Locale): string {
    match l
    case PtBR => "pt-BR"
    case EnUS => "en-US"
  }

  /** The locale whose code is `s`, if any: the own keys of `locales`. */
  function ParseLocale(s: string): (r: Option<Locale>)
    ensures r.Some? <==> s == "pt-BR" || s == "en-US"
  {
    if s == "pt-BR" then Some(PtBR) else if s == "en-US" then Some(EnUS) else None
  }

  lemma ParseLocaleCode(l: Locale)
    ensures ParseLocale(LocaleCode(l)) == Some(l)
  {
  }

  /** `locales[l]` for a locale: each has its own dictionary. */
  function DictionaryFor(l: Locale): Dictionary {
    match l
    case PtBR => PtBRDictionary
    case EnUS => EnUSDictionary
  }

  /** What the browser says about languages: `navigator.language` and `navigator.languages`. */
  datatype Navigator = Navigator(language: Option<string>, languages: Option<seq<string>>)

  /** `navigator.language || navigator.languages?.[0] || 'pt-BR'`; the empty string is falsy. */
  function BrowserLanguage(nav: Navigator): (r: string)
    ensures r != ""
    ensures nav.language.Some? && nav.language.value != "" ==> r == nav.language.value
  {
    if nav.language.Some? && nav.language.value != "" then nav.language.value
    else if nav.languages.Some? && |nav.languages.value| > 0 && nav.languages.value[0] != "" then nav.languages.value[0]
    else "pt-BR"
  }

  /** The locale the browser language maps to: `pt…` and `en…`, anything else Portuguese. */
  function FromBrowser(nav: Navigator): (r: Locale)
    ensures r == EnUS <==> StartsWith(BrowserLanguage(nav), "en") && !StartsWith(BrowserLanguage(nav), "pt")
  {
    var lang := BrowserLanguage(nav);
    if StartsWith(lang, "pt") then PtBR
    else if StartsWith(lang, "en") then EnUS
    else PtBR
  }

  /**
   * The names every plain object inherits from `Object.prototype`: looking
   * one up in `locales` yields a truthy value although it is no locale.
   */
  const InheritedNames: set<string> := {
    "constructor", "hasOwnProperty", "isPrototypeOf", "propertyIsEnumerable", "toLocaleString",
    "toString", "valueOf", "__proto__", "__defineGetter__", "__defineSetter__",
    "__lookupGetter__", "__lookupSetter__"
  }

  /** `detectLanguage()` as written: `saved && locales[saved]` also accepts the inherited names. */
  function DetectLanguageAsWritten(browser: bool, saved: Option<string>, nav: Navigator): string {
    if !browser then "pt-BR"
    else if saved.Some? && saved.value != "" && (ParseLocale(saved.value).Some? || saved.value in InheritedNames) then saved.value
    else LocaleCode(FromBrowser(nav))
  }

  /** A saved `toString` becomes the current locale, which is no locale at all. */
  lemma DetectLanguageAcceptsInheritedName(nav: Navigator)
    ensures DetectLanguageAsWritten(true, Some("toString"), nav) == "toString"
    ensures ParseLocale("toString").None?
  {
  }

  /**
   * `detectLanguage()` with the saved preference checked against the own
   * keys only: outside a browser Portuguese; a saved known locale wins;
   * otherwise the browser language decides.
   */
  function DetectLanguage(browser: bool, saved: Option<string>, nav: Navigator): (r: Locale)
    ensures !browser ==> r == PtBR
    ensures browser && saved.Some? && ParseLocale(saved.value).Some? ==> r == ParseLocale(saved.value).value
    ensures browser && (saved.None? || ParseLocale(saved.value).None?) ==> r == FromBrowser(nav)
  {
    if !browser then PtBR
    else if saved.Some? && saved.value != "" && ParseLocale(saved.value).Some? then ParseLocale(saved.value).value
    else FromBrowser(nav)
  }

  /** The corrected detection gives the code the source gives whenever the saved value is not an inherited name. */
  lemma DetectLanguageAgrees(browser: bool, saved: Option<string>, nav: Navigator)
    requires saved.None? || saved.value !in InheritedNames
    ensures LocaleCode(DetectLanguage(browser, saved, nav)) == DetectLanguageAsWritten(browser, saved, nav)
  {
  }

  /**
   * The `I18n` store, with the `locale` storage slot and the `lang` attribute
   * of the document. It runs the corrected `DetectLanguage`: a saved name
   * inherited from `Object.prototype` is not taken as the locale.
   */
  class I18n {
    var currentLocale: Locale
    var initialized: bool
    /** `localStorage.getItem('locale')` */
    var savedLocale: Option<string>
    /** `document.documentElement.lang` */
    var htmlLang: string
    const browser: bool
    const nav: Navigator

    constructor (browser: bool, nav: Navigator, savedLocale: Option<string>, htmlLang: string)
      ensures this.browser == browser && this.nav == nav
      ensures this.savedLocale == savedLocale && this.htmlLang == htmlLang
      ensures currentLocale == PtBR && !initialized
    {
      this.browser := browser;
      this.nav := nav;
      this.savedLocale := savedLocale;
      this.htmlLang := htmlLang;
      currentLocale := PtBR;
      initialized := false;
    }

    /** `updateHtmlLang()` */
    method UpdateHtmlLang()
      modifies this
      ensures htmlLang == if browser then LocaleCode(currentLocale) else old(htmlLang)
      ensures currentLocale == old(currentLocale) && initialized == old(initialized) && savedLocale == old(savedLocale)
    {
      if browser {
        htmlLang := LocaleCode(currentLocale);
      }
    }

    /** `init()`: detection runs once, in a browser; afterwards, or outside a browser, nothing changes. */
    method Init()
      modifies this
      ensures savedLocale == old(savedLocale)
      ensures old(initialized) || !browser ==>
        currentLocale == old(currentLocale) && initialized == old(initialized) && htmlLang == old(htmlLang)
      ensures !old(initialized) && browser ==>
        && initialized
        && currentLocale == DetectLanguage(browser, savedLocale, nav)
        && htmlLang == LocaleCode(currentLocale)
    {
      if !initialized && browser {
        initialized := true;
        currentLocale := DetectLanguage(browser, savedLocale, nav);
        UpdateHtmlLang();
      }
    }

    /** The `locale` getter: initialises if needed, then reports the current locale. */
    method GetLocale() returns (l: Locale)
      modifies this
      ensures l == currentLocale
      ensures savedLocale == old(savedLocale)
      ensures !old(initialized) && browser ==>
        initialized && l == DetectLanguage(browser, savedLocale, nav) && htmlLang == LocaleCode(l)
      ensures old(initialized) || !browser ==>
        l == old(currentLocale) && initialized == old(initialized) && htmlLang == old(htmlLang)
    {
      Init();
      l := currentLocale;
    }

    /** `setLocale(l)`: the locale is `l` afterwards; in a browser it is also saved and set on the document. */
    method SetLocale(l: Locale)
      modifies this
      ensures currentLocale == l
      ensures browser ==> initialized && savedLocale == Some(LocaleCode(l)) && htmlLang == LocaleCode(l)
      ensures !browser ==> savedLocale == old(savedLocale) && htmlLang == old(htmlLang) && initialized == old(initialized)
    {
      Init();
      currentLocale := l;
      if browser {
        savedLocale := Some(LocaleCode(l));
        UpdateHtmlLang();
      }
    }

    /** The `t` getter: always a dictionary, the current locale's. */
    method T() returns (d: Dictionary)
      modifies this
      ensures d == DictionaryFor(currentLocale)
      ensures savedLocale == old(savedLocale)
      ensures !old(initialized) && browser ==>
        initialized && currentLocale == DetectLanguage(browser, savedLocale, nav) && htmlLang == LocaleCode(currentLocale)
      ensures old(initialized) || !browser ==>
        currentLocale == old(currentLocale) && initialized == old(initialized) && htmlLang == old(htmlLang)
    {
      Init();
      d := DictionaryFor(currentLocale);
    }
  }

  /** A locale that was set is what a later page load detects: the saved code wins over the browser. */
  lemma SetLocaleIsRemembered(l: Locale, nav: Navigator)
    ensures DetectLanguage(true, Some(LocaleCode(l)), nav) == l
  {
  }
}
