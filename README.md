# Dairy assistant front-end: a verified model of its in-browser logic

The dairy assistant is a React front-end. Farmers use it to predict milk yield, check a cow for
disease, upload a herd as CSV, chat with a bot, and read the page in one of 28 languages. Most
answers come from HTTP services. This project models the logic that runs in the browser and
proves what it promises. There is one Dafny module per source file:

- `LanguageContext` (`language_context.dfy`): the translation resolver.
  - A static phrase table is consulted first.
  - Next comes a page-wide cache, keyed by text and target language.
  - Last come three translation providers, tried in a fixed order. A provider is an oracle
    parameter; the first acceptable answer wins and is cached.
  - `tSync` never reaches a provider.
  - A bulk pass rewrites the short fragments of the page, held in an `array<string>`.
  - The chosen language is saved to browser storage and restored on mount.
- `PredictionContext` (`prediction_context.dfy`): the shared prediction log. It is an append-only
  list of tagged records, with "latest" and "any" queries and a clear operation.
- `DiseaseDetectionForm` (`disease_form.dfy`): the cow record and its validator.
  - The validator lists the missing required fields (9 text, 14 numeric) with generated messages.
  - An `every` predicate enables the button and agrees with the validator.
  - The guard in front of the disease request.
- `CsvUploadSection` (`csv_upload.dfy`): the CSV section.
  - A file is accepted only if its MIME type is `text/csv`, the type registered in section 3 of
    RFC 4180.
  - The analyse guard and the request's two outcomes.
  - The healthy count and the plural rule of the results summary.
  - The downloadable template: a header and 25-field records, as in section 2 of RFC 4180.
- `ChatInterface` (`chat_interface.dfy`): the chat log.
  - The log starts with a greeting and only grows.
  - Blank input is ignored.
  - Every send schedules one reply, in the language chosen at send time.
- `DragDropZone` (`drag_drop_zone.dfy`): the upload zone.
  - A size limit is given in megabytes and checked in bytes.
  - The dragging and uploading flags.
  - Each accepted file is delivered exactly once.
- `Common` (`common.dfy`): the `Option` type, the `File` record, and JavaScript's `trim`.

React state that a handler updates is a `class` field that the handler's `method` assigns.
Expressions are `function`s, and each handler's loop is a `while` loop with its invariants.
Network answers, the clock and timers are parameters of the methods that use them:
- `Option<…>` is the body of a request that may fail;
- `now` is the timestamp;
- a `pending` or `scheduled` queue holds the callbacks that a `setTimeout` has not run yet.

## Model

| member | source | states |
|---|---|---|
| `Common.FirstFile` | src/components/CSVUploadSection.tsx:31 | `files?.[0]`: nothing exactly when the list is empty, otherwise the first file |
| `Common.TrimShape` | src/components/ChatInterface.tsx:38 | `trim` returns a contiguous slice of the input that neither starts nor ends with whitespace, and removes only whitespace around it |
| `Common.TrimEmptyIffBlank` | src/components/ChatInterface.tsx:38 | `trim` leaves nothing exactly when the input is all whitespace, so `!s.trim()` is the blank test |
| `LanguageContext.Code` | src/contexts/LanguageContext.tsx:3 | every language code has exactly two characters |
| `LanguageContext.CodeRoundTrip` | src/contexts/LanguageContext.tsx:83-86 | reading back a language's own code against the whitelist gives that language |
| `LanguageContext.FromCodeOnlyCodes` | src/contexts/LanguageContext.tsx:83-84 | a stored string is accepted as a language only when it is exactly that language's code |
| `LanguageContext.KeyStringInjective` | src/contexts/LanguageContext.tsx:91 | distinct (text, language) pairs never share a cache key string `${text}-${lang}` |
| `LanguageContext.StaticLookup` | src/contexts/LanguageContext.tsx:186-188 | a static entry is used exactly when the key is in the table and the language's entry is non-empty, and it is that entry |
| `LanguageContext.StaticEntryForEveryLanguage` | src/contexts/LanguageContext.tsx:24-74 | for a table of the source's shape, a static entry exists in every language (English included) exactly for the seven phrase keys |
| `LanguageContext.TextToTranslate` | src/contexts/LanguageContext.tsx:191 | `fallback \|\| key`: the key itself when the fallback is absent or empty, otherwise the fallback |
| `LanguageContext.SyncLookup` | src/contexts/LanguageContext.tsx:209-225 | `tSync`: the static entry when there is one (English included); otherwise the cached value for `fallback \|\| key` when that key is cached, and the text itself when it is not; with no English keys in the cache, the text itself in English |
| `LanguageContext.Answer` | src/contexts/LanguageContext.tsx:117-170 | acceptability of a provider reply: MyMemory needs status 200, LibreTranslate and Google need `ok`, and all three need a non-empty text; a thrown call is never acceptable |
| `LanguageContext.RunChainFirstAcceptable` | src/contexts/LanguageContext.tsx:116-170 | providers are tried in the order MyMemory, LibreTranslate, Google; the first acceptable answer wins and no later provider is tried; there is no answer exactly when all three fail, and then all three were tried |
| `LanguageContext.CacheAfter` | src/contexts/LanguageContext.tsx:123-164 | `translate` adds at most the entry for its own key and never changes an existing one; it never adds an English key |
| `LanguageContext.Sent` | src/contexts/LanguageContext.tsx:118-159 | the requests sent are one per provider tried, in order, for the same text and language |
| `LanguageContext.TranslateOutcomes` | src/contexts/LanguageContext.tsx:90-181 | a cache hit returns the cached value with no request; English returns the text with no request; a winning answer is returned and stored under its key; if all providers fail the text is returned, the cache is unchanged and all three were asked |
| `LanguageContext.SyncAfterTranslateAgrees` | src/contexts/LanguageContext.tsx:209-225 | after `translate` has run, `tSync` of the same text gives the same value without any provider |
| `LanguageContext.TranslateIdempotent` | src/contexts/LanguageContext.tsx:94-96 | translating again gives the first result and leaves the cache alone; after a hit, an English target or a winning answer, the second call sends nothing |
| `LanguageContext.ExtendedCacheTranslatesAlike` | src/contexts/LanguageContext.tsx:237-251 | entries the bulk pass caches along the way do not change what any later fragment resolves to |
| `LanguageContext.CacheAfterExtends` | src/contexts/LanguageContext.tsx:241 | every `translate` of the pass keeps the cache an extension of the one the pass started from |
| `LanguageContext.FragmentAfterOutcome` | src/contexts/LanguageContext.tsx:238-244 | a fragment changes only when its trimmed text has 1 to 199 characters, and then to the translation of the trimmed text, which differs from it; conversely, such a fragment whose translation differs from its trimmed text is always overwritten with it |
| `LanguageContext.FragmentsAfter` | src/contexts/LanguageContext.tsx:237-251 | the pass keeps the number of fragments |
| `LanguageContext.FragmentsAfterAt` | src/contexts/LanguageContext.tsx:237-249 | each fragment's outcome depends on that fragment alone |
| `LanguageContext.BulkTranslated` | src/contexts/LanguageContext.tsx:229 | `translateAllContent` changes nothing for English, and keeps the page length |
| `LanguageContext.BulkTranslatedAt` | src/contexts/LanguageContext.tsx:228-257 | the bulk pass leaves every ineligible fragment alone; wherever it changes one, the language is not English and the new text is the translation of the trimmed fragment, different from it; for a language other than English, every eligible fragment whose translation differs from its trimmed text is overwritten with it |
| `LanguageContext.RestoredLanguage` | src/contexts/LanguageContext.tsx:81-87 | on mount the saved value is adopted exactly when it is one of the 28 codes; otherwise the current language stays |
| `LanguageContext.SaveThenRestore` | src/contexts/LanguageContext.tsx:259-261 | saving a language's code and mounting again restores that language |
| `LanguageContext.StaleSwitchFromEnglish` | src/contexts/LanguageContext.tsx:259-268 | as written, switching away from English translates nothing; with the corrected pass language, the same switch translates the page |
| `LanguageContext.StaleSwitchCounterexample` | src/contexts/LanguageContext.tsx:264-267 | concrete input on which the scheduled pass as written leaves the page untouched and the corrected pass translates it |
| `LanguageContext.LanguageProvider.constructor` | src/contexts/LanguageContext.tsx:77-78 | the provider starts in English with nothing loading, an empty cache and nothing scheduled; the phrase table has the source's shape and no cache entry has an English target (`Valid`) |
| `LanguageContext.LanguageProvider.LoadSavedLanguage` | src/contexts/LanguageContext.tsx:81-87 | the mount effect sets the language to `RestoredLanguage` of storage |
| `LanguageContext.LanguageProvider.SetLanguage` | src/contexts/LanguageContext.tsx:259-269 | the language is switched; its code is saved under `preferred-language` so a remount restores it; a bulk pass is scheduled exactly when the new language is not English. The scheduled pass reads the language just chosen (the corrected behaviour of the finding below), not the pre-switch language the source's timer reads |
| `LanguageContext.LanguageProvider.Translate` | src/contexts/LanguageContext.tsx:90-181 | the result, new cache and requests sent equal the `translate` specification; `isLoading` ends false whenever providers were asked; no English key is ever cached |
| `LanguageContext.LanguageProvider.CallProviders` | src/contexts/LanguageContext.tsx:116-170 | the three provider attempts return the chain's answer and send exactly the requests of the providers the chain tried |
| `LanguageContext.LanguageProvider.T` | src/contexts/LanguageContext.tsx:184-206 | `t`: a static entry is returned with no cache change and no request; without one, English returns `fallback \|\| key` unchanged, any other language returns `translate` of it with its cache and requests |
| `LanguageContext.LanguageProvider.TSync` | src/contexts/LanguageContext.tsx:209-225 | `tSync` over the provider's state: the static entry for the current language first; otherwise the cached translation of `fallback \|\| key` when there is one, else that text itself, which, under `Valid`, is always the answer in English; it reads the state and changes nothing |
| `LanguageContext.LanguageProvider.TranslateAllContent` | src/contexts/LanguageContext.tsx:228-257 | the page after the pass is `BulkTranslated` of the page before; English changes nothing; otherwise loading ends false, the cache only gains winning answers, and every eligible fragment whose provider chain answered has its translation cached |
| `LanguageContext.LanguageProvider.TranslateFragments` | src/contexts/LanguageContext.tsx:237-251 | the loop over fragments turns the page into `FragmentsAfter` of the original page and caches the answer for every eligible fragment whose chain answered |
| `LanguageContext.LanguageProvider.TranslateAt` | src/contexts/LanguageContext.tsx:238-248 | one fragment becomes its `FragmentAfter` outcome and no other fragment changes; the cache keeps its keys and gains this fragment's answer when its chain gives one |
| `LanguageContext.LanguageProvider.RunScheduledPass` | src/contexts/LanguageContext.tsx:265-267 | a fired timer runs the bulk pass for the language scheduled with it (the corrected language, see `SetLanguage`), and removes it from the queue |
| `PredictionContext.TagsDistinguishKinds` | src/contexts/PredictionContext.tsx:3-42 | two records share a `type` tag exactly when they are of the same kind |
| `PredictionContext.Latest` | src/contexts/PredictionContext.tsx:98-101 | `getLatestPrediction`: null exactly when the log is empty, otherwise its last record |
| `PredictionContext.HasAny` | src/contexts/PredictionContext.tsx:103-105 | `hasAnyPrediction` is true exactly when there is a latest record |
| `PredictionContext.LatestAfterAppend` | src/contexts/PredictionContext.tsx:71-105 | right after an append, the latest record is the one appended and there is some record |
| `PredictionContext.AppendKeepsEarlier` | src/contexts/PredictionContext.tsx:77 | an append grows the log by one and keeps every earlier record where it was |
| `PredictionContext.RecordsOf` | src/contexts/PredictionContext.tsx:71-96 | one record per add call |
| `PredictionContext.AddsOnlyAppend` | src/contexts/PredictionContext.tsx:71-96 | any series of adds keeps the earlier log as a prefix and appends one record per call, in call order |
| `PredictionContext.ClearForgetsEarlier` | src/contexts/PredictionContext.tsx:107-109 | after a clear the log holds exactly what was added since |
| `PredictionContext.PredictionProvider.constructor` | src/contexts/PredictionContext.tsx:69 | the log starts empty |
| `PredictionContext.PredictionProvider.GetLatestPrediction` | src/contexts/PredictionContext.tsx:98-101 | null exactly when the list is empty, otherwise its last element |
| `PredictionContext.PredictionProvider.HasAnyPrediction` | src/contexts/PredictionContext.tsx:103-105 | true exactly when the list is non-empty |
| `PredictionContext.PredictionProvider.AddYieldPrediction` | src/contexts/PredictionContext.tsx:71-78 | exactly one `yield` record with the data and time is appended, and it becomes the latest |
| `PredictionContext.PredictionProvider.AddDiseasePrediction` | src/contexts/PredictionContext.tsx:80-87 | exactly one `disease` record with the data and time is appended, and it becomes the latest |
| `PredictionContext.PredictionProvider.AddCsvPrediction` | src/contexts/PredictionContext.tsx:89-96 | exactly one `csv` record with the data and time is appended, and it becomes the latest |
| `PredictionContext.PredictionProvider.ClearPredictions` | src/contexts/PredictionContext.tsx:107-109 | the list is emptied; there is then no latest record and no prediction |
| `DiseaseDetectionForm.MissingFields` | src/components/DiseaseDetectionForm.tsx:100-104 | at most one entry per listed field |
| `DiseaseDetectionForm.MissingFieldsMember` | src/components/DiseaseDetectionForm.tsx:100-117 | a field is reported exactly when it is in the checked list and its value fails the check |
| `DiseaseDetectionForm.NoneMissingIffAllPass` | src/components/DiseaseDetectionForm.tsx:135-141 | a list reports nothing exactly when every listed field passes (`every`) |
| `DiseaseDetectionForm.ReplaceFirst` | src/components/DiseaseDetectionForm.tsx:102 | `replace('_', ' ')` keeps the length of the name |
| `DiseaseDetectionForm.TitleCase` | src/components/DiseaseDetectionForm.tsx:102 | `replace(/\b\w/g, …)` keeps the length |
| `DiseaseDetectionForm.Names` | src/components/DiseaseDetectionForm.tsx:100-117 | one property name per reported field |
| `DiseaseDetectionForm.Messages` | src/components/DiseaseDetectionForm.tsx:100-117 | one message per reported field |
| `DiseaseDetectionForm.OneWordMessage` | src/components/DiseaseDetectionForm.tsx:102 | a one-word name gets its first letter upper-cased and " is required" appended ("breed" gives "Breed is required") |
| `DiseaseDetectionForm.TwoWordMessage` | src/components/DiseaseDetectionForm.tsx:115 | a name `first_second` gives "First Second is required" (e.g. lactation_stage, past_yield) |
| `DiseaseDetectionForm.ValidationErrorsBound` | src/components/DiseaseDetectionForm.tsx:95-117 | never more than 9 + 14 = 23 errors |
| `DiseaseDetectionForm.TextFieldReported` | src/components/DiseaseDetectionForm.tsx:101 | a required text field is reported exactly when it holds "" or 0 |
| `DiseaseDetectionForm.NumericFieldReported` | src/components/DiseaseDetectionForm.tsx:114 | a required numeric field is reported exactly when it holds 0 or ""; any other number passes, negatives included |
| `DiseaseDetectionForm.OptionalFieldsNeverReported` | src/components/DiseaseDetectionForm.tsx:35-36 | `farmer_description` and `lang` are never reported |
| `DiseaseDetectionForm.OptionalFieldsIgnored` | src/components/DiseaseDetectionForm.tsx:95-111 | changing `farmer_description` or `lang` never changes the error list |
| `DiseaseDetectionForm.MissingFieldsIgnoresOthers` | src/components/DiseaseDetectionForm.tsx:100-104 | the validator reads only the listed fields |
| `DiseaseDetectionForm.FormValidIffNoErrors` | src/components/DiseaseDetectionForm.tsx:123-144 | `isFormValid` holds exactly when `validateForm` finds no error, for every record |
| `DiseaseDetectionForm.PushMissing` | src/components/DiseaseDetectionForm.tsx:100-104 | one `forEach`/`push` loop appends to the list it started from the messages of the failing fields, in list order |
| `DiseaseDetectionForm.CollectErrors` | src/components/DiseaseDetectionForm.tsx:92-117 | the two loops build the text-field messages followed by the numeric-field messages |
| `DiseaseDetectionForm.DiseaseForm.constructor` | src/components/DiseaseDetectionForm.tsx:49-80 | the form starts from the initial record with no result, nothing loading, no errors and the panel hidden |
| `DiseaseDetectionForm.DiseaseForm.HandleInputChange` | src/components/DiseaseDetectionForm.tsx:82-89 | only the named field changes; existing errors are cleared and the panel hidden; otherwise both are left alone |
| `DiseaseDetectionForm.DiseaseForm.ValidateForm` | src/components/DiseaseDetectionForm.tsx:91-121 | the stored error list is the validator's list, and the result is true exactly when it is empty |
| `DiseaseDetectionForm.DiseaseForm.IsFormValid` | src/components/DiseaseDetectionForm.tsx:123-144 | true exactly when the validator's list is empty |
| `DiseaseDetectionForm.DiseaseForm.HandleDetect` | src/components/DiseaseDetectionForm.tsx:146-196 | an invalid form shows the panel and stops, with loading, result and log unchanged; a valid one hides the panel, shows and logs the answer (or the mock result on failure), and ends with nothing loading |
| `CsvUploadSection.BadgeFor` | src/components/CSVUploadSection.tsx:295-303 | the badge is green exactly when the prediction is the string "Healthy" |
| `CsvUploadSection.HealthyCount` | src/components/CSVUploadSection.tsx:376 | the healthy count never exceeds the number of results |
| `CsvUploadSection.HealthyResults` | src/components/CSVUploadSection.tsx:376 | the filter keeps exactly the healthy results (membership) |
| `CsvUploadSection.HealthyResultsCounts` | src/components/CSVUploadSection.tsx:376 | every healthy result is kept as many times as it occurs, and every other result is dropped |
| `CsvUploadSection.HealthyResultsAppend` | src/components/CSVUploadSection.tsx:376 | filtering keeps order: the filter of two batches is the filter of the first followed by the filter of the second |
| `CsvUploadSection.HealthyCountIsFilterLength` | src/components/CSVUploadSection.tsx:376 | the healthy count is the length of the filtered list |
| `CsvUploadSection.HealthyCountExtremes` | src/components/CSVUploadSection.tsx:362-376 | the count equals the total exactly when every badge is green, and is zero exactly when every badge is orange |
| `CsvUploadSection.HealthyCountAppend` | src/components/CSVUploadSection.tsx:376 | the count of two lists put together is the sum of their counts |
| `CsvUploadSection.PluralRule` | src/components/CSVUploadSection.tsx:282 | "cows" exactly when there is more than one result |
| `CsvUploadSection.Split` | src/components/CSVUploadSection.tsx:102-106 | splitting yields at least one piece |
| `CsvUploadSection.SplitJoin` | src/components/CSVUploadSection.tsx:102-106 | records whose fields hold no separator split back into the same fields |
| `CsvUploadSection.JoinFree` | src/components/CSVUploadSection.tsx:102-106 | joining fields that hold no line feed with commas gives a line with no line feed |
| `CsvUploadSection.Lines` | src/components/CSVUploadSection.tsx:102-106 | one comma-joined line per record |
| `CsvUploadSection.TemplateHeaderIsCowData` | src/components/CSVUploadSection.tsx:102 | the template header has 25 names, the `CowData` fields in declaration order |
| `CsvUploadSection.TemplateRowsShape` | src/components/CSVUploadSection.tsx:103-106 | four example rows, each of 25 fields with an empty `farmer_description` and `lang` "en" |
| `CsvUploadSection.CsvUpload.constructor` | src/components/CSVUploadSection.tsx:26-29 | no file, no results, nothing loading, no error |
| `CsvUploadSection.CsvUpload.HandleFileUpload` | src/components/CSVUploadSection.tsx:30-39 | a present file of type exactly `text/csv` is selected, clearing the error and the results; anything else only sets the invalid-file error |
| `CsvUploadSection.CsvUpload.AnalyzeEnabled` | src/components/CSVUploadSection.tsx:168 | the button is enabled exactly when nothing is loading and a file is selected |
| `CsvUploadSection.CsvUpload.HandleAnalyze` | src/components/CSVUploadSection.tsx:41-98 | with no file only the no-file error is set; otherwise the answer is shown and logged with no error, or the mock results are shown and logged with the failure message, and loading always ends false |
| `ChatInterface.ReplyText` | src/components/ChatInterface.tsx:54-56 | the Hindi reply exactly when the language is Hindi, the English reply exactly when it is English |
| `ChatInterface.UserCount` | src/components/ChatInterface.tsx:40-47 | never more than the number of messages |
| `ChatInterface.BotCount` | src/components/ChatInterface.tsx:51-60 | never more than the number of messages |
| `ChatInterface.CountsPartition` | src/components/ChatInterface.tsx:8-13 | every message is either the user's or the bot's |
| `ChatInterface.BadgeVariant` | src/components/ChatInterface.tsx:82-95 | a badge is drawn filled exactly when its language is the current one |
| `ChatInterface.Chat.constructor` | src/components/ChatInterface.tsx:16-25 | the log is the greeting alone, the input is empty and the language is Hindi |
| `ChatInterface.Chat.SetInput` | src/components/ChatInterface.tsx:24 | typing sets the input |
| `ChatInterface.Chat.SendMessage` | src/components/ChatInterface.tsx:37-62 | blank input changes nothing; otherwise the untrimmed input is appended as a user message, the input is cleared and one reply in the current language is scheduled; the greeting stays first and every user message has a delivered or pending reply |
| `ChatInterface.Chat.KeyPress` | src/components/ChatInterface.tsx:64-68 | Enter sends as above; any other key changes nothing |
| `ChatInterface.Chat.DeliverReply` | src/components/ChatInterface.tsx:51-61 | a fired reply timer appends the oldest pending reply as a bot message, keeping the log's invariant |
| `ChatInterface.Chat.SelectLanguage` | src/components/ChatInterface.tsx:85 | a badge click sets only the language |
| `DragDropZone.DefaultLimitInBytes` | src/components/DragDropZone.tsx:38 | with the default 10 MB, a file is accepted exactly when it has at most 10485760 bytes, so a file exactly at the limit passes |
| `DragDropZone.WholeMegabyteLimit` | src/components/DragDropZone.tsx:38 | for a whole number of megabytes, the limit is that many times 1048576 bytes, inclusive |
| `DragDropZone.LimitMonotone` | src/components/DragDropZone.tsx:38 | a larger limit accepts every file a smaller one does |
| `DragDropZone.Deliveries` | src/components/DragDropZone.tsx:48 | at most one delivery per effect |
| `DragDropZone.DeliveriesAppend` | src/components/DragDropZone.tsx:48 | the deliveries of two stretches of effects add up |
| `DragDropZone.AcceptedUploadDeliversOnce` | src/components/DragDropZone.tsx:43-49 | one accepted upload delivers its file exactly once |
| `DragDropZone.Zone.constructor` | src/components/DragDropZone.tsx:12-14 | the props as given, not dragging, not uploading |
| `DragDropZone.Zone.Default` | src/components/DragDropZone.tsx:12 | the default props: accept ".csv" and 10 MB |
| `DragDropZone.Zone.DragOver` | src/components/DragDropZone.tsx:17-20 | dragging becomes true |
| `DragDropZone.Zone.DragLeave` | src/components/DragDropZone.tsx:22-25 | dragging becomes false |
| `DragDropZone.Zone.HandleFileUpload` | src/components/DragDropZone.tsx:37-50 | a file over the limit only raises the alert, leaving the uploading flag and the deliveries alone; any other file sets the uploading flag, is delivered exactly once, and clears the flag |
| `DragDropZone.Zone.Drop` | src/components/DragDropZone.tsx:27-35 | dragging ends; only the first dropped file, if any, goes through the upload: an empty drop changes nothing else, a file over the limit only adds the alert, and any other file adds exactly the uploading-on, delivery, uploading-off effects |
| `DragDropZone.Zone.FileSelect` | src/components/DragDropZone.tsx:56-61 | only the first chosen file, if any, goes through the upload: an empty choice changes nothing, a file over the limit only adds the alert, and any other file adds exactly the uploading-on, delivery, uploading-off effects |

## Left out

- The HTTP services are not modelled. These are the three translation endpoints, `predict_disease`, `download_report` and `predict_csv`.
  - Each appears only as its answer: an oracle for translation, an `Option` for the others.
  - The translation oracle gives the same reply to the same request during one run.
- Translation requests appear in a ghost log, not as real traffic.
- LanguageContext.LanguageProvider.TranslateAllContent: the `Promise.all` fan-out is a sequential loop. `isLoading` flicker when `translate` calls overlap is not modelled; only the final value is stated.
- The page is a flat array of text fragments. `querySelectorAll` and nested `textContent` are not modelled.
- Browser storage is one `map<string, string>`. A thrown `localStorage` access is not modelled.
- LanguageContext.LanguageProvider.SetLanguage: the class schedules a bulk pass that reads the language just chosen, which is the corrected behaviour. The source's timer reads the language from before the switch; that as-written behaviour is modelled separately, in the Findings row below.
- The cache is a field of the provider object. In the source, `translationCache` is a module-level `Map` (src/contexts/LanguageContext.tsx:21), so it survives a remount of the provider and is shared by every provider instance. The model does not capture that sharing.
- The cache is keyed by the pair (text, language), not by the string `${text}-${lang}`. `LanguageContext.KeyStringInjective` proves that the two keyings are equivalent.
- The wording of the static translations is not modelled. The phrase table is a constructor argument with the source's shape: seven keys, each with a non-empty entry in all 28 languages.
- The `useLanguage` and `usePredictionContext` hooks are not modelled: they only throw outside their providers.
- Timers are not modelled as time. `setTimeout` callbacks are queued and fire in order:
  - 100 ms for the bulk pass;
  - 1000 ms for the chat reply;
  - 1500 ms for the upload delay.
- Dates, `Date.now` message ids and the greeting's id are not modelled. Timestamps are a parameter.
- DiseaseDetectionForm.DiseaseForm.HandleDetect: the logged record omits `report_file`. The source passes the whole result to `addDiseasePrediction`, whose type declares no such field.
- DiseaseDetectionForm.OneWordMessage and `DiseaseDetectionForm.TwoWordMessage` state the message rule for one- and two-word names. A concrete instance such as `lactation_stage` is not stated separately.
- toUpperCase is modelled for ASCII letters only. All field names are lower-case ASCII.
- parseFloat/`parseInt` coercion of typed input is not modelled. NaN is not modelled.
- Field values are real numbers, not IEEE doubles.
- Floating point is not modelled. The average daily yield with `toFixed(1)` at src/components/CSVUploadSection.tsx:369 is left out.
- String lengths count code points rather than UTF-16 units. This matters only for the 200-character limit on non-BMP text.
- CsvUploadSection.TemplateRowsShape: two template facts are not proved.
  - That no template field contains a comma or a line feed is not proved.
  - Therefore `CsvUploadSection.SplitJoin` is not applied to the template itself.
  - The template's lines end in LF, not the CRLF of section 2 of RFC 4180, as the source writes them.
- The Blob download, `alert` wording, `scrollIntoView` and `window.open` are not modelled.
  - An alert is an effect carrying the limit.
  - The number formatting inside the alert text is not modelled.
- DragDropZone.Zone.HandleFileUpload: the `accept` prop is stored but never checked, as in the source, so a dropped file of any type is delivered.
- Overlapping uploads started before the 1500 ms delay ends are not modelled. Each upload runs to completion.
- MilkYieldForm.tsx is not part of this model: it is a random mock plus a field setter. The same holds for the presentation-only components (`LanguageToggle`, `ToolsSection`, `DairyHero`, `ThemeToggle`, `Index`) and `tailwind.config.ts`.

## Findings

| source | as written | input that shows it | evidently intended | confidence | as-written member | corrected member |
|---|---|---|---|---|---|---|
| src/contexts/LanguageContext.tsx:259-268 | the 100 ms timer calls the `translateAllContent` of the render in which `setLanguage` ran; that closure reads the language from BEFORE the switch, so the pass returns at line 229 when switching from English, and translates into the old language otherwise | current language English, page holding "Select breed", every provider answering "Seleccionar raza", then `setLanguage('es')`: the page stays "Select breed" | the scheduled pass translates the page into the language just chosen | not executed | `LanguageContext.ScheduledPassLanguageAsWritten` | `LanguageContext.ScheduledPassLanguage` |

The as-written pass language is shown wrong by `LanguageContext.StaleSwitchCounterexample` and `LanguageContext.StaleSwitchFromEnglish`. The corrected pass language is the one `LanguageContext.LanguageProvider.SetLanguage` schedules. `LanguageContext.StaleSwitchFromEnglish` proves that with it the switch translates the page.
