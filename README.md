# LETS-TRANSLATE translator adapters, modelled in Dafny

LETS-TRANSLATE is a desktop form for translating text. `translator.py` defines two
adapters, and each wraps a third-party service. The application builds only
`GoogleTranslator` (main.py:12), and the form calls it (ui.py:121). `LibreTranslator` is
constructed only by the tests; nothing reads the `translation_service` preference
(`config (1).py`:215).

- **`GoogleTranslator`** holds a fixed 22-language table from names to codes.
  - It resolves the source name case-insensitively. An unknown source name becomes `auto`, which asks the library to detect the language.
  - It rejects an unknown target name before any library call.
  - It calls the `deep_translator` library once and returns that library's translation unchanged.
  - If the library raises, it returns `"Translation error: " + message` instead.
  - `detect_language` returns one of two fixed markers: `auto-detected`, or `unknown` when building the library translator raises.
- **`LibreTranslator`** holds an endpoint URL and an optional API key.
  - It builds the form fields `q`, `source`, `target` and `format="text"`. It adds `api_key` only when a key is set.
  - It POSTs them once to the endpoint.
  - It returns the reply's `translatedText`, or `"Translation failed"` when the reply has none.
  - If posting or decoding raises, it returns `"API error: " + message`.

Both adapters return plain strings for success and for failure, and the model keeps it
that way. Two lemmas show the consequence: a translation can be indistinguishable from an
error message.

The model is functional, like the source. Each `translate_text` is a few dictionary
operations inside one `try`/`except` (translator.py:52-67, 89-109). `GoogleTranslator`'s
also returns early on an unsupported target (translator.py:57-58). The adapters' fields
are set once in `__init__`.

- The external services are parameters. The Google library is a function from the call the adapter makes to `Ok(translation)` or `Raise(message)`. The HTTP exchange is a function from the request to the decoded JSON reply or `Raised(message)`.
- Each `TranslateText` returns the result string together with the call or request it made. A rejected target therefore shows as "no library call".

Files:

- `wrappers.dfy`: `Option` and dictionary `get`.
- `py_string.dfy`: Python's `str.lower()` on ASCII letters.
- `google_translator.dfy`: the `GoogleTranslator` instance, its language table and operations.
- `libre_translator.dfy`: the `LibreTranslator` instance, payload and reply handling.

An unknown source name resolves to `auto` (translator.py:54), not to `en`. The `en`
fallback belongs to a separate helper in `config (1).py`:159-161, and that helper is not
part of this model.

## Model

| member | source | states |
|---|---|---|
| `Wrappers.Get` | translator.py:54-55 | `dict.get` gives a value exactly when the key is present, and then the stored value |
| `PyString.LowerChar` | translator.py:54-55 | an upper-case ASCII letter maps to its lower-case letter; any other character is kept |
| `PyString.Lower` | translator.py:54-55 | `lower()` keeps the length and lowers each character in place |
| `PyString.LowerIsLowercase` | translator.py:54-55 | the result of `lower()` contains no upper-case letter |
| `PyString.LowerFixesLowercase` | translator.py:54-55 | `lower()` leaves an already lower-case string unchanged |
| `PyString.LowerIdempotent` | translator.py:54-55 | lowering twice equals lowering once |
| `GoogleTranslator.Catalog` | translator.py:11-34 | the dict's keys are exactly the listed names, and each name maps to the code of its own entry |
| `GoogleTranslator.UnlistedName` | translator.py:11-34 | a name that no entry carries is not a key of the dict |
| `GoogleTranslator.EntryNamesDistinct` | translator.py:11-34 | no language name is listed twice |
| `GoogleTranslator.EntryNamesLowercase` | translator.py:11-34 | every listed name is lower case |
| `GoogleTranslator.New` | translator.py:10-34 | the constructor builds a 22-entry table; its names are distinct and lower case, and its codes are two characters long |
| `GoogleTranslator.NewCatalogCodes` | translator.py:11-34 | every catalog code is at least two characters long; `english -> en` and `spanish -> es` |
| `GoogleTranslator.SupportedLanguages` | translator.py:36-38 | the dict's keys, each exactly once, in insertion order, and no other names |
| `GoogleTranslator.NewSupportedLanguages` | translator.py:36-38 | the constructed instance offers 22 names, including english, spanish, french and german |
| `GoogleTranslator.SourceCode` | translator.py:54 | a listed name (after `lower()`) gives its code; any other name gives `auto` |
| `GoogleTranslator.Truthy` | translator.py:57 | a looked-up target code counts as true when it is present and not the empty string; it is false exactly for `None` and `""` |
| `GoogleTranslator.TargetCode` | translator.py:55 | a listed name (after `lower()`) gives its code; any other name gives nothing |
| `GoogleTranslator.ResolutionIgnoresCase` | translator.py:54-55 | names equal after `lower()` resolve to the same source and target codes |
| `GoogleTranslator.NewEntryResolves` | translator.py:54-55 | each listed name resolves to its own code, both as a source and as a target |
| `GoogleTranslator.NewResolution` | translator.py:54-57 | for the built catalog, a source resolves to `auto` exactly when its name is unlisted; `not target_code` holds exactly for unlisted targets |
| `GoogleTranslator.NewAutoResolvesToAuto` | translator.py:54 | `auto`, `AUTO` and `Auto` all resolve to `auto` |
| `GoogleTranslator.TranslateText` | translator.py:52-67 | a missing or empty target code gives the rejection string and no library call. Otherwise there is exactly one call, with the resolved codes and the text. A success is returned unchanged. A raise becomes `"Translation error: " + message`. |
| `GoogleTranslator.ResultDependsOnlyOnRecordedCall` | translator.py:55-64 | the library is consulted only at the recorded call; for a rejected target, the result does not depend on the library at all |
| `GoogleTranslator.TranslateIgnoresCase` | translator.py:54-55 | translation depends on the language names only through `lower()` |
| `GoogleTranslator.NewRejectsExactlyUnlisted` | translator.py:55-58 | with the built catalog, the library is skipped exactly when the target name is not listed |
| `GoogleTranslator.TranslateScenarioSuccess` | test_translator.py:34-46 | english to spanish calls the library once with `(en, es, "Hello world")` and returns its answer |
| `GoogleTranslator.TranslateScenarioAutoDetect` | test_translator.py:48-58 | source `auto` calls the library with `(auto, fr)` |
| `GoogleTranslator.TranslateScenarioUnsupported` | test_translator.py:60-63 | target `klingon` gives the rejection string without a library call |
| `GoogleTranslator.TranslateScenarioFailure` | test_translator.py:65-71 | a library raising "Network error" yields `"Translation error: Network error"` |
| `GoogleTranslator.SuccessAndErrorCollide` | translator.py:57-64 | a translation that reads like the rejection message gives the same string as a rejection |
| `GoogleTranslator.DetectLanguage` | translator.py:69-77 | the result is `auto-detected` exactly when the translator for `(auto, en)` can be built; otherwise it is `unknown` |
| `GoogleTranslator.DetectIgnoresText` | translator.py:69-75 | detection does not depend on the text |
| `LibreTranslator.New` | translator.py:83-85 | the instance keeps the given URL and key |
| `LibreTranslator.NewDefaults` | translator.py:83 | the default URL is the public LibreTranslate endpoint, and by default there is no key |
| `LibreTranslator.HasKey` | translator.py:97 | the configured key counts as set when it is present and not the empty string; it is unset exactly for `None` and `""` |
| `LibreTranslator.Payload` | translator.py:90-98 | the fields are exactly `q`, `source`, `target` and `format`, plus `api_key` when a key is set; the values are the arguments unchanged and `format` is `text` |
| `LibreTranslator.ApiKeySentIffConfigured` | translator.py:97-98 | `api_key` is sent if and only if the key is set and non-empty, and then unchanged; removing it leaves the keyless payload |
| `LibreTranslator.ReadReply` | translator.py:103-109 | the result is `translatedText` when the reply has it, `"Translation failed"` when it does not, and `"API error: " + message` on an exception |
| `LibreTranslator.TranslateText` | translator.py:89-109 | one POST of the payload to the configured URL; the result is that request's reply, read as above |
| `LibreTranslator.OnlyTranslatedTextMatters` | translator.py:103-106 | replies that agree on `translatedText` give the same result, whatever their other fields hold |
| `LibreTranslator.ErrorFieldIgnored` | translator.py:103-106 | a reply that carries only an `error` field gives `"Translation failed"`, whatever the message says |
| `LibreTranslator.PayloadScenario` | test_translator.py:102-123 | the default instance posts exactly `{q, source, target, format: text}` to the default URL |
| `LibreTranslator.ApiKeyScenario` | test_translator.py:125-138 | with the key `test_key`, the payload carries `api_key = test_key` |
| `LibreTranslator.ReplyScenarios` | test_translator.py:140-156 | a reply with a translation returns it; an error-only reply gives `"Translation failed"`; a raised "Connection error" gives `"API error: Connection error"` |
| `LibreTranslator.SuccessAndFailureCollide` | translator.py:103-106 | a translation reading "Translation failed" gives the same string as a reply without a translation |

## Left out

- `PyString.LowerChar`, `PyString.Lower`: map only ASCII `A`-`Z`. Python's `str.lower()` also folds other Unicode letters, such as the Kelvin sign to `k`. Those mappings are not modelled.
- Both adapters assume the arguments are strings. A `None` language name would raise inside the `try` of translator.py:52-67, and that path is not modelled.
- The `deep_translator` library is a parameter. Building the translator (translator.py:61) and calling `translate` (translator.py:62) are folded into one outcome, because the same `except` catches a raise from either. A non-string return from `translate` is not modelled.
- `GoogleTranslator.TranslateText`, `LibreTranslator.TranslateText`: `Raise`/`Raised` stand for an `Exception`, which the `except Exception` clauses (translator.py:66, 108) catch. A `BaseException` that is not an `Exception`, such as `KeyboardInterrupt`, propagates out of the adapter in the source and is not modelled.
- `GoogleTranslator.DetectLanguage`: its bare `except:` (translator.py:76) catches every exception, so `ConstructRaise` stands for any raise. The translator it builds is discarded, so the model keeps only whether building it raises.
- `requests.post` and `response.json()` are a parameter. The model covers no HTTP, no form encoding, no field order and no JSON parsing.
- `LibreTranslator.ReadReply`: the reply is a JSON object with string values. A non-object body or a non-string `translatedText` is not modelled.
- `ui.py` and `main.py` (the Tk form, clipboard and start-up) and `config (1).py` (its own language helpers, API-key environment variables and preferences file) are not part of this model.
- The functions are deterministic, so calling an adapter twice with the same inputs and the same service gives the same result; no separate lemma states this.
