/**
 * The client's display language (src/contexts/language-context.tsx): English or
 * Arabic, the text direction that follows from it, the toggle, and the lookup of
 * a translated string with English as the fallback.
 */
module Language {
  import opened Wrappers

  datatype Lang = En | Ar

  /** The code the language is stored under. */
  function Code(l: Lang): string
  {
    match l
    case En => "en"
    case Ar => "ar"
  }

  /** `storedLang && ['en', 'ar'].includes(storedLang)`: the language a stored code names, if any. */
  function LangOf(stored: Option<string>): (r: Option<Lang>)
    ensures r.Some? ==> stored == Some(Code(r.value))
  {
    if stored == Some("en") then Some(En)
    else if stored == Some("ar") then Some(Ar)
    else None
  }

  /** A stored code is accepted exactly when it is the code of a language, and then names that language. */
  lemma LangOfCode(l: Lang)
    ensures LangOf(Some(Code(l))) == Some(l)
  {
    if l == Ar {
      assert Code(l)[0] != 'e';
    }
  }

  /** The direction text runs in. */
  datatype Dir = Ltr | Rtl

  /** `lang === 'ar' ? 'rtl' : 'ltr'`. */
  function DirOf(l: Lang): Dir
  {
    if l == Ar then Rtl else Ltr
  }

  /** `lang === 'en' ? 'ar' : 'en'`. */
  function Toggled(l: Lang): (r: Lang)
    ensures r != l
  {
    if l == En then Ar else En
  }

  /** Toggling twice gives back the language. */
  lemma ToggledTwice(l: Lang)
    ensures Toggled(Toggled(l)) == l
  {
  }

  /** Toggling flips the direction. */
  lemma ToggledFlipsDir(l: Lang)
    ensures DirOf(Toggled(l)) != DirOf(l)
  {
  }

  /** The translation table: for each language, its strings by key. */
  type Table = Lang -> map<string, string>

  /**
   * `translations[lang][key] || translations['en'][key]`: the entry of the current
   * language when it is present and non-empty, otherwise the English entry (`None`
   * when English has none either).
   */
  function Translate(table: Table, l: Lang, key: string): Option<string>
  {
    if key in table(l) && table(l)[key] != "" then Some(table(l)[key])
    else if key in table(En) then Some(table(En)[key])
    else None
  }

  /** In English the lookup is the English entry itself. */
  lemma TranslateEnglish(table: Table, key: string)
    ensures Translate(table, En, key) == (if key in table(En) then Some(table(En)[key]) else None)
  {
  }

  /** The lookup never answers from a language other than the current one and English. */
  lemma TranslateSource(table: Table, l: Lang, key: string)
    ensures Translate(table, l, key).Some? ==>
      (key in table(l) && Translate(table, l, key).value == table(l)[key])
      || (key in table(En) && Translate(table, l, key).value == table(En)[key])
    ensures Translate(table, l, key).None? <==> key !in table(En) && (key !in table(l) || table(l)[key] == "")
  {
  }

  /** The current language, with its direction and lookup. */
  class LanguageContext {
    var lang: Lang

    /** The language starts as English. */
    constructor()
      ensures lang == En
    {
      lang := En;
    }

    /** The load effect: a stored "en" or "ar" is adopted; anything else leaves the language as it was. */
    method LoadStored(stored: Option<string>)
      modifies this
      ensures LangOf(stored).Some? ==> lang == LangOf(stored).value
      ensures LangOf(stored).None? ==> lang == old(lang)
      ensures lang == old(lang) || stored == Some(Code(lang))
    {
      var l := LangOf(stored);
      if l.Some? {
        lang := l.value;
      }
    }

    function Dir(): Dir
      reads this
    {
      DirOf(lang)
    }

    function T(table: Table, key: string): Option<string>
      reads this
    {
      Translate(table, lang, key)
    }

    /** `toggleLanguage()`: English becomes Arabic and Arabic English; the direction flips. */
    method ToggleLanguage()
      modifies this
      ensures lang == Toggled(old(lang))
      ensures lang != old(lang) && Dir() != old(Dir())
    {
      ToggledFlipsDir(lang);
      lang := Toggled(lang);
    }
  }
}
