/**
 * The `GoogleTranslator` adapter: a fixed language catalog, name resolution
 * for the source and target languages, and the mapping of the translation
 * library's outcome to the plain string shown to the user.
 *
 * The library itself (constructing a translator for a source/target pair and
 * calling `translate(text)` on it) is a parameter: a function from the call the
 * adapter makes to what that call produced, a translation or a raised exception.
 */
module GoogleTranslator {
  import opened Wrappers
  import opened PyString

  // ---------------------------------------------------------------------------
  // The language table and the instance
  // ---------------------------------------------------------------------------

  predicate DistinctNames(entries: seq<(string, string)>) {
    forall i, j :: 0 <= i < j < |entries| ==> entries[i].0 != entries[j].0
  }

  /** A Python dict from language names to codes: its entries in insertion order, no name twice. */
  type LanguageTable = t: seq<(string, string)> | DistinctNames(t) witness []

  /** A `GoogleTranslator` instance: the `supported_languages` dict it was built with. */
  datatype Translator = Translator(supportedLanguages: LanguageTable)

  /** The dict as a lookup map: every listed name, stored with the code of its own entry. */
  function Catalog(g: Translator): (m: map<string, string>)
    ensures m.Keys == set i | 0 <= i < |g.supportedLanguages| :: g.supportedLanguages[i].0
    ensures forall i :: 0 <= i < |g.supportedLanguages| ==>
      m[g.supportedLanguages[i].0] == g.supportedLanguages[i].1
  {
    var t := g.supportedLanguages;
    map i | 0 <= i < |t| :: t[i].0 := t[i].1
  }

  /** A name that no entry carries is not in the dict. */
  lemma UnlistedName(g: Translator, name: string)
    requires forall i :: 0 <= i < |g.supportedLanguages| ==> g.supportedLanguages[i].0 != name
    ensures name !in Catalog(g)
  {
  }

  /** The literal table of `__init__`, in declaration order. */
  const Entries: seq<(string, string)> := [
    ("english", "en"), ("spanish", "es"), ("french", "fr"), ("german", "de"),
    ("hindi", "hi"), ("italian", "it"), ("japanese", "ja"), ("chinese", "zh"),
    ("russian", "ru"), ("arabic", "ar"), ("portuguese", "pt"), ("dutch", "nl"),
    ("korean", "ko"), ("swedish", "sv"), ("norwegian", "no"), ("danish", "da"),
    ("finnish", "fi"), ("greek", "el"), ("hebrew", "he"), ("thai", "th"),
    ("vietnamese", "vi"), ("turkish", "tr")
  ]

  /** No name occurs twice in the table. */
  lemma EntryNamesDistinct()
    ensures DistinctNames(Entries)
  {
  }

  /** Neither `auto` nor `klingon` is a name of the table. */
  lemma EntriesOmitAutoAndKlingon()
    ensures forall i :: 0 <= i < |Entries| ==> Entries[i].0 != "auto" && Entries[i].0 != "klingon"
  {
  }

  /** Every name in the table is written in lower case. */
  lemma EntryNamesLowercase()
    ensures forall i :: 0 <= i < |Entries| ==> IsLowercase(Entries[i].0)
  {
  }

  /**
   * `GoogleTranslator()`: the instance holds the 22-language table, whose names
   * are distinct and lower-case and whose codes are two characters long.
   */
  function New(): (g: Translator)
    ensures |g.supportedLanguages| == 22
    ensures forall i :: 0 <= i < |g.supportedLanguages| ==>
      |g.supportedLanguages[i].1| == 2 && IsLowercase(g.supportedLanguages[i].0)
  {
    EntryNamesDistinct();
    EntryNamesLowercase();
    Translator(Entries)
  }

  /** Every code in the built catalog is at least two characters long; `english -> en`, `spanish -> es`. */
  lemma NewCatalogCodes()
    ensures forall name :: name in Catalog(New()) ==> |Catalog(New())[name]| >= 2
    ensures "english" in Catalog(New()) && Catalog(New())["english"] == "en"
    ensures "spanish" in Catalog(New()) && Catalog(New())["spanish"] == "es"
  {
    var g := New();
    assert g.supportedLanguages[0] == ("english", "en") && g.supportedLanguages[1] == ("spanish", "es");
    forall name | name in Catalog(g)
      ensures |Catalog(g)[name]| >= 2
    {
      var i :| 0 <= i < |g.supportedLanguages| && g.supportedLanguages[i].0 == name;
    }
  }

  // ---------------------------------------------------------------------------
  // get_supported_languages
  // ---------------------------------------------------------------------------

  /** `list(self.supported_languages.keys())`: every name of the dict once, in insertion order. */
  function SupportedLanguages(g: Translator): (names: seq<string>)
    ensures |names| == |g.supportedLanguages|
    ensures forall i :: 0 <= i < |names| ==> names[i] == g.supportedLanguages[i].0
    ensures forall name :: name in names <==> name in Catalog(g)
    ensures forall i, j :: 0 <= i < j < |names| ==> names[i] != names[j]
  {
    var t := g.supportedLanguages;
    seq(|t|, i requires 0 <= i < |t| => t[i].0)
  }

  /** The built instance offers 22 languages, among them those the tests and the form rely on. */
  lemma NewSupportedLanguages()
    ensures |SupportedLanguages(New())| == 22
    ensures "english" in SupportedLanguages(New()) && "spanish" in SupportedLanguages(New())
    ensures "french" in SupportedLanguages(New()) && "german" in SupportedLanguages(New())
  {
    var names := SupportedLanguages(New());
    assert names[0] == "english" && names[1] == "spanish";
    assert names[2] == "french" && names[3] == "german";
  }

  // ---------------------------------------------------------------------------
  // Name resolution
  // ---------------------------------------------------------------------------

  /** The code that asks the library to detect the source language itself. */
  const Auto := "auto"

  /** `self.supported_languages.get(source_lang.lower(), 'auto')`. */
  function SourceCode(g: Translator, sourceLang: string): (code: string)
    ensures Lower(sourceLang) in Catalog(g) ==> code == Catalog(g)[Lower(sourceLang)]
    ensures Lower(sourceLang) !in Catalog(g) ==> code == Auto
  {
    match Get(Catalog(g), Lower(sourceLang))
    case Some(code) => code
    case None => Auto
  }

  /** `self.supported_languages.get(target_lang.lower())`: `None` for a name missing from the dict. */
  function TargetCode(g: Translator, targetLang: string): (code: Option<string>)
    ensures code.Some? <==> Lower(targetLang) in Catalog(g)
    ensures code.Some? ==> code.value == Catalog(g)[Lower(targetLang)]
  {
    Get(Catalog(g), Lower(targetLang))
  }

  /** Python truthiness of the looked-up target code: present and not the empty string. */
  predicate Truthy(code: Option<string>)
    ensures !Truthy(code) <==> code == None || code == Some("")
  {
    code.Some? && code.value != ""
  }

  /** Resolution ignores letter case. */
  lemma ResolutionIgnoresCase(g: Translator, a: string, b: string)
    requires Lower(a) == Lower(b)
    ensures SourceCode(g, a) == SourceCode(g, b)
    ensures TargetCode(g, a) == TargetCode(g, b)
  {
  }

  /** Every listed name, exactly as listed, resolves to its own code as a source and as a target. */
  lemma NewEntryResolves(i: nat)
    requires i < |New().supportedLanguages|
    ensures var entry := New().supportedLanguages[i];
      SourceCode(New(), entry.0) == entry.1 && TargetCode(New(), entry.0) == Some(entry.1)
  {
    LowerFixesLowercase(New().supportedLanguages[i].0);
  }

  /**
   * For the built catalog, `auto` comes back exactly for the names it does not
   * list (no code is `auto`), and the test `if not target_code` rejects exactly
   * those names (no code is empty).
   */
  lemma NewResolution(name: string)
    ensures SourceCode(New(), name) == Auto <==> Lower(name) !in Catalog(New())
    ensures Truthy(TargetCode(New(), name)) <==> Lower(name) in Catalog(New())
  {
    NewCatalogCodes();
  }

  /** `auto`, in any letter case, is not a listed name and resolves to the detection code. */
  lemma NewAutoResolvesToAuto()
    ensures SourceCode(New(), "auto") == Auto && SourceCode(New(), "AUTO") == Auto
    ensures SourceCode(New(), "Auto") == Auto
  {
    EntriesOmitAutoAndKlingon();
    UnlistedName(New(), "auto");
    LowerFixesLowercase("auto");
    assert Lower("AUTO") == "auto" && Lower("Auto") == "auto";
  }

  // ---------------------------------------------------------------------------
  // translate_text
  // ---------------------------------------------------------------------------

  /** The library call the adapter makes: a translator for `(source, target)`, then `translate(text)`. */
  datatype BackendCall = BackendCall(source: string, target: string, text: string)

  /**
   * What that call produced: the translated string, or an `Exception` with its
   * message (`str(e)`). Only `Exception`s are caught; other raises are not modelled.
   */
  datatype BackendOutcome = Ok(translation: string) | Raise(message: string)

  /** The string returned to the caller, and the library call made, if any. */
  datatype Translation = Translation(result: string, call: Option<BackendCall>)

  const UnsupportedTarget := "Error: Target language not supported"
  const ErrorPrefix := "Translation error: "

  /**
   * `GoogleTranslator.translate_text(text, source_lang, target_lang)`: a target
   * name missing from the dict, or mapped to an empty code, is rejected before
   * the library is reached; otherwise the library is called once with the
   * resolved codes, its translation returned unchanged and its exception turned
   * into an error string.
   */
  function TranslateText(g: Translator, text: string, sourceLang: string, targetLang: string,
                         backend: BackendCall -> BackendOutcome): (t: Translation)
    ensures !Truthy(TargetCode(g, targetLang)) <==> t.call.None?
    ensures t.call.None? ==> t.result == UnsupportedTarget
    ensures t.call.Some? ==>
      && Lower(targetLang) in Catalog(g)
      && t.call.value == BackendCall(SourceCode(g, sourceLang), Catalog(g)[Lower(targetLang)], text)
      && (backend(t.call.value).Ok? ==> t.result == backend(t.call.value).translation)
      && (backend(t.call.value).Raise? ==> t.result == ErrorPrefix + backend(t.call.value).message)
  {
    var sourceCode := SourceCode(g, sourceLang);
    var targetCode := TargetCode(g, targetLang);
    if !Truthy(targetCode) then
      Translation(UnsupportedTarget, None)
    else
      var call := BackendCall(sourceCode, targetCode.value, text);
      match backend(call)
      case Ok(translation) => Translation(translation, Some(call))
      case Raise(message) => Translation(ErrorPrefix + message, Some(call))
  }

  /**
   * The library is consulted only at the one call recorded in the result: two
   * libraries that agree on that call give the same result, and a rejected
   * target gives the same result whatever the library would have done.
   */
  lemma ResultDependsOnlyOnRecordedCall(g: Translator, text: string, sourceLang: string, targetLang: string,
                                        b1: BackendCall -> BackendOutcome, b2: BackendCall -> BackendOutcome)
    requires var t := TranslateText(g, text, sourceLang, targetLang, b1);
      t.call.Some? ==> b1(t.call.value) == b2(t.call.value)
    ensures TranslateText(g, text, sourceLang, targetLang, b1) == TranslateText(g, text, sourceLang, targetLang, b2)
  {
  }

  /** Translation ignores the letter case of both language names. */
  lemma TranslateIgnoresCase(g: Translator, text: string, s1: string, s2: string, t1: string, t2: string,
                             backend: BackendCall -> BackendOutcome)
    requires Lower(s1) == Lower(s2) && Lower(t1) == Lower(t2)
    ensures TranslateText(g, text, s1, t1, backend) == TranslateText(g, text, s2, t2, backend)
  {
    ResolutionIgnoresCase(g, s1, s2);
    ResolutionIgnoresCase(g, t1, t2);
  }

  /** With the built catalog, a target is rejected exactly when its name is not listed. */
  lemma NewRejectsExactlyUnlisted(text: string, sourceLang: string, targetLang: string,
                                  backend: BackendCall -> BackendOutcome)
    ensures TranslateText(New(), text, sourceLang, targetLang, backend).call.None?
        <==> Lower(targetLang) !in Catalog(New())
  {
    NewResolution(targetLang);
  }

  /** `english` resolves to `en`. */
  lemma EnglishResolves()
    ensures SourceCode(New(), "english") == "en"
  {
    assert New().supportedLanguages[0] == ("english", "en");
    NewEntryResolves(0);
  }

  /** `spanish` resolves to `es`. */
  lemma SpanishResolves()
    ensures TargetCode(New(), "spanish") == Some("es")
  {
    assert New().supportedLanguages[1] == ("spanish", "es");
    NewEntryResolves(1);
  }

  /** `french` resolves to `fr`. */
  lemma FrenchResolves()
    ensures TargetCode(New(), "french") == Some("fr")
  {
    assert New().supportedLanguages[2] == ("french", "fr");
    NewEntryResolves(2);
  }

  /** The names the scenarios use resolve to their codes. */
  lemma ScenarioNamesResolve()
    ensures SourceCode(New(), "english") == "en" && TargetCode(New(), "spanish") == Some("es")
    ensures TargetCode(New(), "french") == Some("fr")
  {
    EnglishResolves();
    SpanishResolves();
    FrenchResolves();
  }

  /** `klingon` is not a listed name. */
  lemma KlingonUnlisted()
    ensures Lower("klingon") !in Catalog(New())
  {
    EntriesOmitAutoAndKlingon();
    UnlistedName(New(), "klingon");
    LowerFixesLowercase("klingon");
  }

  /** `english -> spanish` with a library that answers "Hola mundo": that answer, from one call with `(en, es)`. */
  lemma TranslateScenarioSuccess(backend: BackendCall -> BackendOutcome)
    requires backend(BackendCall("en", "es", "Hello world")) == Ok("Hola mundo")
    ensures TranslateText(New(), "Hello world", "english", "spanish", backend)
         == Translation("Hola mundo", Some(BackendCall("en", "es", "Hello world")))
  {
    ScenarioNamesResolve();
  }

  /** `auto -> french`: the library is asked to detect the source language. */
  lemma TranslateScenarioAutoDetect(backend: BackendCall -> BackendOutcome)
    requires backend(BackendCall("auto", "fr", "Hello world")) == Ok("Bonjour le monde")
    ensures TranslateText(New(), "Hello world", "auto", "french", backend)
         == Translation("Bonjour le monde", Some(BackendCall("auto", "fr", "Hello world")))
  {
    ScenarioNamesResolve();
    NewAutoResolvesToAuto();
  }

  /** `klingon` is rejected before the library is reached. */
  lemma TranslateScenarioUnsupported(backend: BackendCall -> BackendOutcome)
    ensures TranslateText(New(), "Hello", "english", "klingon", backend) == Translation(UnsupportedTarget, None)
  {
    KlingonUnlisted();
  }

  /** A library that raises "Network error" yields the error string, not an exception. */
  lemma TranslateScenarioFailure(backend: BackendCall -> BackendOutcome)
    requires backend(BackendCall("en", "es", "Hello")) == Raise("Network error")
    ensures TranslateText(New(), "Hello", "english", "spanish", backend).result == ErrorPrefix + "Network error"
  {
    ScenarioNamesResolve();
  }

  /**
   * Success and failure share one string type: a translation that happens to read
   * like the unsupported-target message cannot be told apart from the rejection.
   */
  lemma SuccessAndErrorCollide(backend: BackendCall -> BackendOutcome)
    requires backend(BackendCall("en", "es", "x")) == Ok(UnsupportedTarget)
    ensures TranslateText(New(), "x", "english", "spanish", backend).result
         == TranslateText(New(), "x", "english", "klingon", backend).result
    ensures TranslateText(New(), "x", "english", "spanish", backend).call.Some?
    ensures TranslateText(New(), "x", "english", "klingon", backend).call.None?
  {
    ScenarioNamesResolve();
    KlingonUnlisted();
  }

  // ---------------------------------------------------------------------------
  // detect_language
  // ---------------------------------------------------------------------------

  /** Constructing a library translator: it either succeeds or raises (anything: the `except:` is bare). */
  datatype Construction = Built | ConstructRaise(message: string)

  /**
   * `GoogleTranslator.detect_language(text)`: builds a translator for
   * `('auto', 'en')` and reports a fixed marker; the text is never looked at.
   */
  function DetectLanguage(text: string, construct: (string, string) -> Construction): (r: string)
    ensures r == "auto-detected" || r == "unknown"
    ensures r == "auto-detected" <==> construct(Auto, "en").Built?
  {
    match construct(Auto, "en")
    case Built => "auto-detected"
    case ConstructRaise(_) => "unknown"
  }

  /** Detection does not depend on the text. */
  lemma DetectIgnoresText(a: string, b: string, construct: (string, string) -> Construction)
    ensures DetectLanguage(a, construct) == DetectLanguage(b, construct)
  {
  }
}
