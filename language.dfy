/** The `language` slice (`src/store/slices/languageSlice.ts`): the current language,
    the list of languages offered, the right-to-left flag derived from the current
    language, and the language the device reports. */
module LanguageSlice {
  datatype Language = Language(code: string, name: string, nativeName: string, flag: string)

  /** The twelve languages offered at start. */
  const Available: seq<Language> := [
    Language("en", "English", "English", "🇺🇸"),
    Language("es", "Spanish", "Español", "🇪🇸"),
    Language("fr", "French", "Français", "🇫🇷"),
    Language("de", "German", "Deutsch", "🇩🇪"),
    Language("it", "Italian", "Italiano", "🇮🇹"),
    Language("pt", "Portuguese", "Português", "🇵🇹"),
    Language("ru", "Russian", "Русский", "🇷🇺"),
    Language("zh", "Chinese", "中文", "🇨🇳"),
    Language("ja", "Japanese", "日本語", "🇯🇵"),
    Language("ko", "Korean", "한국어", "🇰🇷"),
    Language("ar", "Arabic", "العربية", "🇸🇦"),
    Language("hi", "Hindi", "हिन्दी", "🇮🇳")
  ]

  /** The languages written right to left; only Arabic of them is offered. */
  const RtlLanguages: seq<string> := ["ar", "he", "fa", "ur"]

  /** `isRTLLanguage`. */
  predicate IsRTLLanguage(code: string) {
    code in RtlLanguages
  }

  /** `languages.some(lang => lang.code === code)`. */
  predicate Supports(languages: seq<Language>, code: string) {
    exists i :: 0 <= i < |languages| && languages[i].code == code
  }

  /** `getSystemLanguage`, given the device's locale codes in preference order: the
      first one when it is offered, English otherwise or when there is none. */
  function SystemLanguage(locales: seq<string>): (code: string)
    ensures Supports(Available, code)
    ensures code == "en" || (|locales| > 0 && code == locales[0])
    ensures |locales| > 0 && Supports(Available, locales[0]) ==> code == locales[0]
  {
    assert Available[0].code == "en";
    if |locales| > 0 && Supports(Available, locales[0]) then locales[0] else "en"
  }

  /** Offered languages carry distinct codes. */
  predicate CodesUnique(languages: seq<Language>) {
    forall i, j :: 0 <= i < j < |languages| ==> languages[i].code != languages[j].code
  }

  /** `filter(lang => lang.code !== code)`. */
  function WithoutCode(languages: seq<Language>, code: string): (r: seq<Language>)
    ensures |r| <= |languages|
    ensures forall l :: l in r <==> l in languages && l.code != code
    ensures !Supports(r, code)
  {
    if languages == [] then []
    else if languages[0].code == code then WithoutCode(languages[1..], code)
    else [languages[0]] + WithoutCode(languages[1..], code)
  }

  /** Filtering keeps codes distinct. */
  lemma {:induction false} WithoutCodeUnique(languages: seq<Language>, code: string)
    requires CodesUnique(languages)
    ensures CodesUnique(WithoutCode(languages, code))
  {
    if languages != [] {
      var tail := languages[1..];
      assert CodesUnique(tail) by {
        forall i, j | 0 <= i < j < |tail| ensures tail[i].code != tail[j].code {
          assert tail[i] == languages[i + 1] && tail[j] == languages[j + 1];
        }
      }
      WithoutCodeUnique(tail, code);
      var rest := WithoutCode(tail, code);
      if languages[0].code != code {
        var r := [languages[0]] + rest;
        forall i, j | 0 <= i < j < |r| ensures r[i].code != r[j].code {
          if i == 0 {
            assert r[j] == rest[j - 1] && r[j] in tail;
            var k :| 0 <= k < |tail| && tail[k] == r[j];
            assert languages[k + 1] == r[j];
          } else {
            assert r[i] == rest[i - 1] && r[j] == rest[j - 1];
          }
        }
      }
    }
  }

  /** An offered code other than the one filtered out stays offered. */
  lemma WithoutCodeKeeps(languages: seq<Language>, code: string, other: string)
    requires Supports(languages, other) && other != code
    ensures Supports(WithoutCode(languages, code), other)
  {
    var i :| 0 <= i < |languages| && languages[i].code == other;
    assert languages[i] in WithoutCode(languages, code);
  }

  /** The codes offered at start are distinct. */
  lemma AvailableUnique()
    ensures CodesUnique(Available)
  {
  }

  class LanguageState {
    var currentLanguage: string
    var availableLanguages: seq<Language>
    var isRTL: bool
    var systemLanguage: string

    /** The flag agrees with the current language. */
    predicate Valid()
      reads this
    {
      isRTL == IsRTLLanguage(currentLanguage)
    }

    /** The current language is one of those offered. */
    predicate CurrentOffered()
      reads this
    {
      Supports(availableLanguages, currentLanguage)
    }

    constructor (locales: seq<string>)
      ensures currentLanguage == systemLanguage == SystemLanguage(locales)
      ensures availableLanguages == Available
      ensures Valid() && CurrentOffered() && CodesUnique(availableLanguages)
    {
      var code := SystemLanguage(locales);
      currentLanguage, availableLanguages, systemLanguage := code, Available, code;
      isRTL := IsRTLLanguage(code);
      AvailableUnique();
    }

    /** `setLanguage`: switches only to an offered language. */
    method SetLanguage(code: string)
      modifies this`currentLanguage, this`isRTL
      ensures Supports(availableLanguages, code) ==> currentLanguage == code && isRTL == IsRTLLanguage(code)
      ensures !Supports(availableLanguages, code) ==> currentLanguage == old(currentLanguage) && isRTL == old(isRTL)
      ensures old(Valid()) ==> Valid()
      ensures old(CurrentOffered()) ==> CurrentOffered()
    {
      if Supports(availableLanguages, code) {
        currentLanguage := code;
        isRTL := IsRTLLanguage(code);
      }
    }

    /** `addLanguage`: appends only a language whose code is not offered yet. */
    method AddLanguage(l: Language)
      modifies this`availableLanguages
      ensures availableLanguages == if Supports(old(availableLanguages), l.code) then old(availableLanguages)
                                    else old(availableLanguages) + [l]
      ensures Supports(availableLanguages, l.code)
      ensures old(CodesUnique(availableLanguages)) ==> CodesUnique(availableLanguages)
      ensures old(CurrentOffered()) ==> CurrentOffered()
    {
      if !Supports(availableLanguages, l.code) {
        ghost var before := availableLanguages;
        availableLanguages := availableLanguages + [l];
        assert availableLanguages[|before|] == l;
        assert forall i :: 0 <= i < |before| ==> availableLanguages[i] == before[i];
      }
    }

    /** `removeLanguage`: English and the current language are never removed; any
        other code loses every entry that carries it. */
    method RemoveLanguage(code: string)
      modifies this`availableLanguages
      ensures availableLanguages == if code != "en" && code != currentLanguage
                                    then WithoutCode(old(availableLanguages), code) else old(availableLanguages)
      ensures old(Supports(availableLanguages, "en")) ==> Supports(availableLanguages, "en")
      ensures old(CodesUnique(availableLanguages)) ==> CodesUnique(availableLanguages)
      ensures old(CurrentOffered()) ==> CurrentOffered()
    {
      if code != "en" && code != currentLanguage {
        ghost var before := availableLanguages;
        availableLanguages := WithoutCode(availableLanguages, code);
        if Supports(before, "en") { WithoutCodeKeeps(before, code, "en"); }
        if Supports(before, currentLanguage) { WithoutCodeKeeps(before, code, currentLanguage); }
        if CodesUnique(before) { WithoutCodeUnique(before, code); }
      }
    }

    /** `resetToSystemLanguage`: copies the system language over, offered or not. */
    method ResetToSystemLanguage()
      modifies this`currentLanguage, this`isRTL
      ensures currentLanguage == systemLanguage && Valid()
    {
      currentLanguage := systemLanguage;
      isRTL := IsRTLLanguage(systemLanguage);
    }

    /** `updateSystemLanguage`: records the code and nothing else. */
    method UpdateSystemLanguage(code: string)
      modifies this`systemLanguage
      ensures systemLanguage == code
    {
      systemLanguage := code;
    }
  }

  /** Recording an unoffered system language and resetting to it leaves a current
      language that is not offered, here a right-to-left one. */
  method ResetToUnofferedLanguage() returns (s: LanguageState)
    ensures !s.CurrentOffered() && s.Valid() && s.isRTL && s.currentLanguage == "he"
  {
    s := new LanguageState([]);
    s.UpdateSystemLanguage("he");
    s.ResetToSystemLanguage();
    assert forall i :: 0 <= i < |Available| ==> Available[i].code != "he";
  }
}
