/**
 * The `LibreTranslator` adapter: it builds the form fields of one POST to a
 * LibreTranslate endpoint and turns the reply into the plain string shown to
 * the user.
 *
 * The HTTP exchange (`requests.post` followed by `response.json()`) is a
 * parameter: a function from the request the adapter makes to either the
 * decoded JSON object of the reply or an exception with its message.
 */
module LibreTranslator {
  import opened Wrappers

  const DefaultBaseUrl := "https://libretranslate.com/translate"

  /** An adapter instance: the endpoint and the optional API key, fixed at construction. */
  datatype Translator = Translator(baseUrl: string, apiKey: Option<string>)

  /** `LibreTranslator(base_url=..., api_key=...)`, with the same defaults. */
  function New(baseUrl: string := DefaultBaseUrl, apiKey: Option<string> := None): (lt: Translator)
    ensures lt.baseUrl == baseUrl && lt.apiKey == apiKey
  {
    Translator(baseUrl, apiKey)
  }

  /** Without arguments the adapter talks to the public endpoint without a key. */
  lemma NewDefaults()
    ensures New().baseUrl == "https://libretranslate.com/translate"
    ensures New().apiKey == None
    ensures New(apiKey := Some("test_key")).baseUrl == DefaultBaseUrl
  {
  }

  /** Python truthiness of `self.api_key`: set, and not the empty string. */
  predicate HasKey(lt: Translator)
    ensures !HasKey(lt) <==> lt.apiKey == None || lt.apiKey == Some("")
  {
    lt.apiKey.Some? && lt.apiKey.value != ""
  }

  /** The form fields sent for one translation: the four fixed fields, plus `api_key` when a key is set. */
  function Payload(lt: Translator, text: string, source: string, target: string): (data: map<string, string>)
    ensures data.Keys == {"q", "source", "target", "format"} + (if HasKey(lt) then {"api_key"} else {})
    ensures data["q"] == text && data["source"] == source && data["target"] == target
    ensures data["format"] == "text"
    ensures "api_key" in data ==> data["api_key"] == lt.apiKey.value
  {
    var data := map["q" := text, "source" := source, "target" := target, "format" := "text"];
    if HasKey(lt) then data["api_key" := lt.apiKey.value] else data
  }

  /** The key is sent if and only if one is configured, and then unchanged; the other fields do not depend on it. */
  lemma ApiKeySentIffConfigured(lt: Translator, text: string, source: string, target: string)
    ensures "api_key" in Payload(lt, text, source, target) <==> HasKey(lt)
    ensures HasKey(lt) ==> Payload(lt, text, source, target)["api_key"] == lt.apiKey.value
    ensures Payload(lt, text, source, target) - {"api_key"} == Payload(New(), text, source, target)
  {
    var data := Payload(lt, text, source, target);
    var plain := Payload(New(), text, source, target);
    assert (data - {"api_key"}).Keys == plain.Keys;
  }

  /** The request made: a POST of the form fields to the configured endpoint. */
  datatype PostRequest = PostRequest(url: string, data: map<string, string>)

  /**
   * What the exchange produced: the reply decoded as a JSON object whose values
   * are strings, or an `Exception` raised while posting or decoding (only
   * `Exception`s are caught; other raises are not modelled).
   */
  datatype PostOutcome = Reply(json: map<string, string>) | Raised(message: string)

  /** The string returned to the caller, and the request made. */
  datatype Translation = Translation(result: string, request: PostRequest)

  const TranslationFailed := "Translation failed"
  const ApiErrorPrefix := "API error: "

  /** Reading the reply: `translatedText` when the reply has it, a fixed message otherwise, the error text for an exception. */
  function ReadReply(outcome: PostOutcome): (r: string)
    ensures outcome.Reply? && "translatedText" in outcome.json ==> r == outcome.json["translatedText"]
    ensures outcome.Reply? && "translatedText" !in outcome.json ==> r == TranslationFailed
    ensures outcome.Raised? ==> r == ApiErrorPrefix + outcome.message
  {
    match outcome
    case Reply(json) =>
      if "translatedText" in json then json["translatedText"] else TranslationFailed
    case Raised(message) => ApiErrorPrefix + message
  }

  /** `LibreTranslator.translate_text(text, source_lang, target_lang)`: exactly one POST, then the reply read. */
  function TranslateText(lt: Translator, text: string, source: string, target: string,
                         post: PostRequest -> PostOutcome): (t: Translation)
    ensures t.request == PostRequest(lt.baseUrl, Payload(lt, text, source, target))
    ensures t.result == ReadReply(post(t.request))
  {
    var request := PostRequest(lt.baseUrl, Payload(lt, text, source, target));
    Translation(ReadReply(post(request)), request)
  }

  /** Only `translatedText` in a reply matters: an `error` field or any other field is ignored. */
  lemma OnlyTranslatedTextMatters(j1: map<string, string>, j2: map<string, string>)
    requires ("translatedText" in j1) == ("translatedText" in j2)
    requires "translatedText" in j1 ==> j1["translatedText"] == j2["translatedText"]
    ensures ReadReply(Reply(j1)) == ReadReply(Reply(j2))
  {
  }

  /** A reply carrying only an error message gives the fixed failure string, whatever the message says. */
  lemma ErrorFieldIgnored(message: string)
    ensures ReadReply(Reply(map["error" := message])) == TranslationFailed
  {
    assert "translatedText" !in map["error" := message];
  }

  /** Without a key, the form carries exactly the four fixed fields. */
  lemma PayloadScenario(post: PostRequest -> PostOutcome)
    ensures TranslateText(New(), "Hello world", "en", "es", post).request
         == PostRequest(DefaultBaseUrl, map["q" := "Hello world", "source" := "en", "target" := "es", "format" := "text"])
  {
    var data := Payload(New(), "Hello world", "en", "es");
    assert data.Keys == {"q", "source", "target", "format"};
  }

  /** With the key `test_key`, the form carries it. */
  lemma ApiKeyScenario(post: PostRequest -> PostOutcome)
    ensures var t := TranslateText(New(apiKey := Some("test_key")), "Test", "en", "es", post);
      "api_key" in t.request.data && t.request.data["api_key"] == "test_key"
  {
  }

  /** A reply with a translation, a reply with only an error, and a failed request. */
  lemma ReplyScenarios(t: Translation, post: PostRequest -> PostOutcome)
    requires t == TranslateText(New(), "Hello", "en", "es", post)
    ensures post(t.request) == Reply(map["translatedText" := "Hola mundo"]) ==> t.result == "Hola mundo"
    ensures post(t.request) == Reply(map["error" := "Translation failed"]) ==> t.result == TranslationFailed
    ensures post(t.request) == Raised("Connection error") ==> t.result == "API error: Connection error"
  {
    ErrorFieldIgnored("Translation failed");
  }

  /**
   * Success and failure share one string type: a service that translates into the
   * words "Translation failed" is indistinguishable from a reply without a translation.
   */
  lemma SuccessAndFailureCollide()
    ensures ReadReply(Reply(map["translatedText" := TranslationFailed]))
         == ReadReply(Reply(map["error" := "quota exceeded"]))
  {
    ErrorFieldIgnored("quota exceeded");
  }
}
