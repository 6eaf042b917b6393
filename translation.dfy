/**
 * `QtTranslationManager` (localization/translation.py): the languages on
 * offer, read from the compiled catalogue names, and switching language.
 * The Qt application, the system locale and loading a catalogue are
 * parameters.
 */
module Translation {
  import opened Wrappers
  import opened Text
  import opened Sorting

  const CataloguePrefix := "concrete_backup_"

  /** A compiled catalogue's file name: "concrete_backup_" + code + ".qm". */
  predicate IsCatalogue(filename: string) {
    StartsWith(filename, CataloguePrefix) && EndsWith(filename, ".qm")
  }

  /** `filename[len("concrete_backup_"):-3]`. */
  function CodeOf(filename: string): (code: string)
    requires IsCatalogue(filename)
    ensures filename == CataloguePrefix + code + ".qm"
  {
    assert filename[|filename| - 3] == '.' by {
      assert filename[|filename| - 3..][0] == '.';
    }
    assert forall j :: 0 <= j < 16 ==> filename[j] == CataloguePrefix[j] by {
      assert filename[..16] == CataloguePrefix;
    }
    assert '.' !in CataloguePrefix;
    assert |filename| >= 19;
    var code := filename[16..|filename| - 3];
    assert filename == filename[..16] + code + filename[|filename| - 3..];
    code
  }

  /** x is the code of one of the first i names of the listing. */
  ghost predicate CodeAmong(filenames: seq<string>, i: nat, x: string) {
    exists j :: 0 <= j < i && j < |filenames| && IsCatalogue(filenames[j]) && x == CodeOf(filenames[j])
  }

  /**
   * `get_available_languages()` over the names in the catalogue directory
   * (none when it does not exist): "en", and the code of every catalogue,
   * each once, sorted.
   */
  method GetAvailableLanguages(dirExists: bool, filenames: seq<string>) returns (languages: seq<string>)
    ensures SortedStrings(languages) && Distinct(languages)
    ensures "en" in languages
    ensures forall x :: x in languages <==> x == "en" || (dirExists && CodeAmong(filenames, |filenames|, x))
  {
    var found := ["en"];
    if dirExists {
      found := CollectCodes(filenames);
    }
    languages := SortStrings(found);
    DistinctPermutation(found, languages);
    forall x
      ensures x in languages <==> x in found
    {
      assert x in languages <==> x in multiset(languages);
      assert x in found <==> x in multiset(found);
    }
  }

  /** The loop of `get_available_languages`: "en", then each new code in listing order. */
  method CollectCodes(filenames: seq<string>) returns (languages: seq<string>)
    ensures Distinct(languages) && |languages| > 0 && languages[0] == "en"
    ensures forall x :: x in languages <==> x == "en" || CodeAmong(filenames, |filenames|, x)
  {
    languages := ["en"];
    for i := 0 to |filenames|
      invariant Distinct(languages) && |languages| > 0 && languages[0] == "en"
      invariant forall x :: x in languages <==> x == "en" || CodeAmong(filenames, i, x)
    {
      var filename := filenames[i];
      if StartsWith(filename, CataloguePrefix) && EndsWith(filename, ".qm") {
        var code := CodeOf(filename);
        if code !in languages {
          languages := languages + [code];
        }
      }
    }
  }

  /** `name.split('_')[0]` when the name holds a '_', else the name. */
  function LanguagePart(localeName: string): string {
    if '_' in localeName then Split(localeName, '_')[0] else localeName
  }

  /** A locale name "xx_YY" gives "xx": the part before the first '_'. */
  lemma {:induction false} LanguagePartIsPrefix(localeName: string)
    ensures var code := LanguagePart(localeName);
            '_' !in code && StartsWith(localeName, code) &&
            ('_' in localeName ==> |code| < |localeName| && localeName[|code|] == '_')
    decreases |localeName|
  {
    if localeName != [] && localeName[0] != '_' && '_' in localeName {
      assert '_' in localeName[1..];
      LanguagePartIsPrefix(localeName[1..]);
    }
  }

  /** A translator object: the language its catalogue is for, and whether it was installed. */
  datatype Translator = Translator(code: string, installed: bool)

  /** The manager's state: its current language and its translator. */
  datatype LangState = LangState(current: string, translator: Option<Translator>)

  /**
   * What holds between calls: without a translator the language is "en";
   * a translator is never for "en", and the language is its code exactly
   * when it was installed, "en" when its catalogue did not load.
   */
  predicate Coherent(st: LangState) {
    match st.translator
    case None => st.current == "en"
    case Some(t) => t.code != "en" && st.current == (if t.installed then t.code else "en")
  }

  /**
   * `set_language(language_code)`: no application gives False and changes
   * nothing; `loads` says whether the catalogue of that name in the
   * translations directory loads; no code means the system locale's language part; the old
   * translator is removed; "en" needs none; otherwise the catalogue is
   * loaded and installed, or the language falls back to "en".
   */
  function SetLanguage(st: LangState, appRunning: bool, languageCode: Option<string>, systemLocale: string,
                       loads: string -> bool): (bool, LangState)
  {
    if !appRunning then (false, st)
    else
      var code := if languageCode.Some? then languageCode.value else LanguagePart(systemLocale);
      if code == "en" then (true, LangState("en", None))
      else if loads(CataloguePrefix + code) then (true, LangState(code, Some(Translator(code, true))))
      else (false, LangState("en", Some(Translator(code, false))))
  }

  /**
   * Switching keeps the state coherent. It succeeds exactly when there is
   * an application and the language is "en" or its catalogue loads; the
   * language is then the one asked for, and "en" after a failure.
   */
  lemma SetLanguageOutcome(st: LangState, appRunning: bool, languageCode: Option<string>, systemLocale: string,
                           loads: string -> bool)
    requires Coherent(st)
    ensures var (ok, st') := SetLanguage(st, appRunning, languageCode, systemLocale, loads);
            var code := if languageCode.Some? then languageCode.value else LanguagePart(systemLocale);
            && Coherent(st')
            && (!appRunning ==> st' == st)
            && (appRunning ==> (ok <==> code == "en" || loads(CataloguePrefix + code)))
            && (appRunning && ok ==> st'.current == code)
            && (appRunning && !ok ==> st'.current == "en")
            && (appRunning && code == "en" ==> st'.translator.None?)
  {
  }

  /** The manager. */
  class TranslationManager {
    var currentLanguage: string
    var translator: Option<Translator>

    constructor()
      ensures currentLanguage == "en" && translator.None?
    {
      currentLanguage := "en";
      translator := None;
    }

    function State(): LangState
      reads this
    {
      LangState(currentLanguage, translator)
    }

    /** `set_language(language_code)`. */
    method SetLanguageTo(appRunning: bool, languageCode: Option<string>, systemLocale: string, loads: string -> bool)
      returns (ok: bool)
      modifies this
      ensures (ok, State()) == SetLanguage(old(State()), appRunning, languageCode, systemLocale, loads)
    {
      if !appRunning {
        return false;
      }
      var code := if languageCode.Some? then languageCode.value else systemLocale;
      if languageCode.None? && '_' in code {
        code := Split(code, '_')[0];
      }
      if translator.Some? {
        translator := None;
      }
      if code == "en" {
        currentLanguage := "en";
        return true;
      }
      translator := Some(Translator(code, false));
      if loads(CataloguePrefix + code) {
        translator := Some(Translator(code, true));
        currentLanguage := code;
        return true;
      } else {
        currentLanguage := "en";
        return false;
      }
    }
  }
}
