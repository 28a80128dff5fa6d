/** The language subsystem of the dairy assistant front-end: a static phrase
    table, a process-wide translation cache keyed by `text-lang`, a chain of
    three translation providers tried in a fixed order, a synchronous lookup
    that never reaches a provider, a bulk pass that rewrites short page
    fragments, and the language choice saved in browser storage. */
module LanguageContext {
  import opened Common

  /** The supported languages, in the order the `Language` union lists them. */
  datatype Language =
    | En | Hi | Bn | Te | Mr | Ta | Gu | Ur | Kn | Or | Pa | As | Ne | Ml
    | Sa | Ks | Sd | Bo | Es | Fr | De | Pt | It | Ru | Ja | Ko | Zh | Ar

  /** The two-letter code of a language: what the providers receive, what
      is saved in storage and what ends a cache key. */
  function Code(lang: Language): (c: string)
    ensures |c| == 2
  {
    match lang
    case En => "en"
    case Hi => "hi"
    case Bn => "bn"
    case Te => "te"
    case Mr => "mr"
    case Ta => "ta"
    case Gu => "gu"
    case Ur => "ur"
    case Kn => "kn"
    case Or => "or"
    case Pa => "pa"
    case As => "as"
    case Ne => "ne"
    case Ml => "ml"
    case Sa => "sa"
    case Ks => "ks"
    case Sd => "sd"
    case Bo => "bo"
    case Es => "es"
    case Fr => "fr"
    case De => "de"
    case Pt => "pt"
    case It => "it"
    case Ru => "ru"
    case Ja => "ja"
    case Ko => "ko"
    case Zh => "zh"
    case Ar => "ar"
  }

  /** The language a stored code names, if it is one of the supported codes. */
  function FromCode(s: string): Option<Language> {
    match s
    case "en" => Some(En)
    case "hi" => Some(Hi)
    case "bn" => Some(Bn)
    case "te" => Some(Te)
    case "mr" => Some(Mr)
    case "ta" => Some(Ta)
    case "gu" => Some(Gu)
    case "ur" => Some(Ur)
    case "kn" => Some(Kn)
    case "or" => Some(Or)
    case "pa" => Some(Pa)
    case "as" => Some(As)
    case "ne" => Some(Ne)
    case "ml" => Some(Ml)
    case "sa" => Some(Sa)
    case "ks" => Some(Ks)
    case "sd" => Some(Sd)
    case "bo" => Some(Bo)
    case "es" => Some(Es)
    case "fr" => Some(Fr)
    case "de" => Some(De)
    case "pt" => Some(Pt)
    case "it" => Some(It)
    case "ru" => Some(Ru)
    case "ja" => Some(Ja)
    case "ko" => Some(Ko)
    case "zh" => Some(Zh)
    case "ar" => Some(Ar)
    case _ => None
  }

  /** Reading back a language's code gives the language. */
  lemma CodeRoundTrip(lang: Language)
    ensures FromCode(Code(lang)) == Some(lang)
  {
  }

  /** A string is read back as a language only when it is that language's code. */
  lemma FromCodeOnlyCodes(s: string)
    ensures FromCode(s).Some? ==> Code(FromCode(s).value) == s
  {
  }

  /** The source language of every page and of every provider request. */
  const English: Language := En

  /** The storage key under which the chosen language is saved. */
  const PreferredLanguageKey: string := "preferred-language"

  /** The keys of the static phrase table. */
  const PhraseKeys: seq<string> := [
    "hero.title", "hero.subtitle", "hero.startPredicting", "hero.chatAssistant",
    "hero.farmersHelped", "hero.predictionAccuracy", "hero.aiSupport"]

  // ---------------------------------------------------------------------------
  // Cache keys

  /** A cache entry is keyed by the text and the target language. */
  datatype CacheKey = CacheKey(text: string, lang: Language)

  /** The string `${text}-${lang}` under which the entry is stored. */
  function KeyString(key: CacheKey): string {
    key.text + "-" + Code(key.lang)
  }

  /** Language codes all have two characters, so the text and the language
      can be read back from a key string: distinct pairs never share one,
      and keying the cache by the pair loses nothing. */
  lemma {:induction false} KeyStringInjective(key1: CacheKey, key2: CacheKey)
    requires KeyString(key1) == KeyString(key2)
    ensures key1 == key2
  {
    var s := KeyString(key1);
    assert |key1.text| == |key2.text|;
    assert key1.text == s[..|key1.text|];
    assert key2.text == s[..|key2.text|];
    assert Code(key1.lang) == s[|key1.text| + 1..];
    assert Code(key2.lang) == s[|key2.text| + 1..];
    CodeRoundTrip(key1.lang);
    CodeRoundTrip(key2.lang);
  }

  /** No entry of the cache is keyed by an English target. */
  ghost predicate NoEnglishKeys(cache: map<CacheKey, string>) {
    forall key :: key in cache ==> key.lang != English
  }

  // ---------------------------------------------------------------------------
  // Static phrase table

  /** Phrase key -> language -> curated translation. The wording of the
      curated strings is not part of this model, only the table's shape. */
  type PhraseTable = map<string, map<Language, string>>

  /** Exactly the phrase keys, each with a non-empty entry for every language. */
  ghost predicate WellFormedTable(table: PhraseTable) {
    && (forall key :: key in table <==> key in PhraseKeys)
    && (forall key, lang: Language :: key in table ==> lang in table[key] && table[key][lang] != "")
  }

  /** The truthiness test `defaultTranslations[key] && defaultTranslations[key][language]`. */
  function StaticLookup(table: PhraseTable, key: string, lang: Language): (r: Option<string>)
    ensures r.Some? <==> key in table && lang in table[key] && table[key][lang] != ""
    ensures r.Some? ==> r.value == table[key][lang]
  {
    if key in table && lang in table[key] && table[key][lang] != "" then Some(table[key][lang]) else None
  }

  /** For a well-formed table, the static entry exists exactly for the phrase keys, in every language. */
  lemma StaticEntryForEveryLanguage(table: PhraseTable, key: string, lang: Language)
    requires WellFormedTable(table)
    ensures StaticLookup(table, key, lang).Some? <==> key in PhraseKeys
  {
  }

  /** `fallback || key`: an absent or empty fallback yields the key. */
  function TextToTranslate(key: string, fallback: Option<string>): (r: string)
    ensures r == key || (fallback == Some(r) && r != "")
    ensures (fallback.None? || fallback == Some("")) ==> r == key
    ensures fallback.Some? && fallback.value != "" ==> r == fallback.value
  {
    if fallback.Some? && fallback.value != "" then fallback.value else key
  }

  /** The synchronous lookup `tSync(key, fallback)` over the current state:
      static table first (English included), then the cache, then the text itself. */
  function SyncLookup(table: PhraseTable, cache: map<CacheKey, string>, language: Language,
                      key: string, fallback: Option<string>): (r: string)
    ensures StaticLookup(table, key, language).Some? ==> r == StaticLookup(table, key, language).value
    ensures StaticLookup(table, key, language).None? && CacheKey(TextToTranslate(key, fallback), language) in cache ==>
              r == cache[CacheKey(TextToTranslate(key, fallback), language)]
    ensures StaticLookup(table, key, language).None? && CacheKey(TextToTranslate(key, fallback), language) !in cache ==>
              r == TextToTranslate(key, fallback)
    ensures StaticLookup(table, key, language).None? && language == English && NoEnglishKeys(cache) ==>
              r == TextToTranslate(key, fallback)
  {
    match StaticLookup(table, key, language)
    case Some(phrase) => phrase
    case None =>
      var text := TextToTranslate(key, fallback);
      var cacheKey := CacheKey(text, language);
      if cacheKey in cache then cache[cacheKey] else text
  }

  // ---------------------------------------------------------------------------
  // Providers

  datatype Provider = MyMemory | LibreTranslate | GoogleTranslate

  /** The order in which `translate` tries the providers. */
  const ProviderOrder: seq<Provider> := [MyMemory, LibreTranslate, GoogleTranslate]

  /** What one provider call produced: it threw (network failure, malformed
      JSON), or it returned a body. `ok` is the HTTP `response.ok`,
      `responseStatus` the status field inside a MyMemory body, and
      `translatedText` the candidate translation (`responseData.translatedText`,
      `translatedText` or `data[0][0][0]`), empty when the field is absent. */
  datatype Reply = Threw | Body(ok: bool, responseStatus: int, translatedText: string)

  /** The outside world: the reply each provider gives to a request. */
  type Oracle = (Provider, string, Language) -> Reply

  /** One outbound provider request. */
  datatype Request = Request(provider: Provider, text: string, lang: Language)

  /** The translation a provider's reply yields, if the reply is acceptable. */
  function Answer(provider: Provider, reply: Reply): (a: Option<string>)
    ensures a.Some? ==> reply.Body? && a.value == reply.translatedText && a.value != ""
    ensures provider == MyMemory ==>
              (a.Some? <==> reply.Body? && reply.responseStatus == 200 && reply.translatedText != "")
    ensures provider != MyMemory ==>
              (a.Some? <==> reply.Body? && reply.ok && reply.translatedText != "")
  {
    match reply
    case Threw => None
    case Body(ok, status, translated) =>
      var accepted := match provider
        case MyMemory => status == 200
        case LibreTranslate => ok
        case GoogleTranslate => ok;
      if accepted && translated != "" then Some(translated) else None
  }

  /** The providers a chain run consulted, and the answer it settled on. */
  datatype ChainOutcome = ChainOutcome(tried: seq<Provider>, answer: Option<string>)

  /** The provider chain of `translate`: MyMemory, then LibreTranslate, then Google. */
  function RunChain(oracle: Oracle, text: string, lang: Language): ChainOutcome {
    var first := Answer(MyMemory, oracle(MyMemory, text, lang));
    if first.Some? then ChainOutcome([MyMemory], first)
    else
      var second := Answer(LibreTranslate, oracle(LibreTranslate, text, lang));
      if second.Some? then ChainOutcome([MyMemory, LibreTranslate], second)
      else ChainOutcome(ProviderOrder, Answer(GoogleTranslate, oracle(GoogleTranslate, text, lang)))
  }

  /** The first acceptable answer wins and no later provider is tried; the
      chain gives no answer exactly when every provider's reply is unacceptable,
      and then all three were tried. */
  lemma RunChainFirstAcceptable(oracle: Oracle, text: string, lang: Language)
    ensures var c := RunChain(oracle, text, lang);
            && 1 <= |c.tried| <= |ProviderOrder| && c.tried == ProviderOrder[..|c.tried|]
            && (forall i :: 0 <= i < |c.tried| - 1 ==> Answer(c.tried[i], oracle(c.tried[i], text, lang)).None?)
            && c.answer == Answer(c.tried[|c.tried| - 1], oracle(c.tried[|c.tried| - 1], text, lang))
            && (c.answer.None? <==>
                  forall i :: 0 <= i < |ProviderOrder| ==> Answer(ProviderOrder[i], oracle(ProviderOrder[i], text, lang)).None?)
            && (c.answer.None? ==> c.tried == ProviderOrder)
  {
  }

  // ---------------------------------------------------------------------------
  // Specification of `translate`

  /** The value `translate(text, lang)` resolves to against `cache`. */
  function Translated(cache: map<CacheKey, string>, oracle: Oracle, text: string, lang: Language): string {
    var cacheKey := CacheKey(text, lang);
    if cacheKey in cache then cache[cacheKey]
    else if lang == English then text
    else RunChain(oracle, text, lang).answer.GetOr(text)
  }

  /** The cache after `translate(text, lang)`: a winning answer is stored under its key. */
  function CacheAfter(cache: map<CacheKey, string>, oracle: Oracle, text: string, lang: Language): (r: map<CacheKey, string>)
    ensures cache.Keys <= r.Keys <= cache.Keys + {CacheKey(text, lang)}
    ensures forall k :: k in cache ==> r[k] == cache[k]
    ensures NoEnglishKeys(cache) ==> NoEnglishKeys(r)
  {
    var cacheKey := CacheKey(text, lang);
    if cacheKey in cache || lang == English then cache
    else
      match RunChain(oracle, text, lang).answer
      case Some(translated) => cache[cacheKey := translated]
      case None => cache
  }

  /** The requests for `text` and `lang` sent to the providers `tried`, in order. */
  function Sent(tried: seq<Provider>, text: string, lang: Language): (r: seq<Request>)
    ensures |r| == |tried|
    ensures forall i :: 0 <= i < |tried| ==> r[i] == Request(tried[i], text, lang)
  {
    seq(|tried|, i requires 0 <= i < |tried| => Request(tried[i], text, lang))
  }

  /** The provider requests `translate(text, lang)` sends. */
  function RequestsOf(cache: map<CacheKey, string>, oracle: Oracle, text: string, lang: Language): seq<Request> {
    if CacheKey(text, lang) in cache || lang == English then []
    else Sent(RunChain(oracle, text, lang).tried, text, lang)
  }

  /** A cache hit returns the cached value and sends nothing; English returns
      the text and sends nothing; otherwise the chain is consulted, a winning
      answer is returned and stored, and when every provider fails the text
      comes back and the cache is left as it was, so a later call retries. */
  lemma TranslateOutcomes(cache: map<CacheKey, string>, oracle: Oracle, text: string, lang: Language)
    ensures CacheKey(text, lang) in cache ==>
              Translated(cache, oracle, text, lang) == cache[CacheKey(text, lang)]
              && CacheAfter(cache, oracle, text, lang) == cache && RequestsOf(cache, oracle, text, lang) == []
    ensures NoEnglishKeys(cache) && lang == English ==>
              Translated(cache, oracle, text, lang) == text
              && CacheAfter(cache, oracle, text, lang) == cache && RequestsOf(cache, oracle, text, lang) == []
    ensures CacheKey(text, lang) !in cache && lang != English && RunChain(oracle, text, lang).answer.None? ==>
              Translated(cache, oracle, text, lang) == text
              && CacheAfter(cache, oracle, text, lang) == cache
              && |RequestsOf(cache, oracle, text, lang)| == |ProviderOrder|
    ensures CacheKey(text, lang) !in cache && lang != English && RunChain(oracle, text, lang).answer.Some? ==>
              var translated := RunChain(oracle, text, lang).answer.value;
              Translated(cache, oracle, text, lang) == translated != ""
              && CacheAfter(cache, oracle, text, lang) == cache[CacheKey(text, lang) := translated]
  {
  }

  /** Once `translate` has run, the synchronous lookup of the same text gives
      the same value, without consulting any provider. */
  lemma SyncAfterTranslateAgrees(table: PhraseTable, cache: map<CacheKey, string>, oracle: Oracle,
                                 text: string, lang: Language)
    requires NoEnglishKeys(cache)
    requires StaticLookup(table, text, lang).None?
    ensures SyncLookup(table, CacheAfter(cache, oracle, text, lang), lang, text, None)
            == Translated(cache, oracle, text, lang)
  {
  }

  /** Resolving twice gives the first result; after a successful resolution
      the second sends no request at all. */
  lemma TranslateIdempotent(cache: map<CacheKey, string>, oracle: Oracle, text: string, lang: Language)
    requires NoEnglishKeys(cache)
    ensures var after := CacheAfter(cache, oracle, text, lang);
            && Translated(after, oracle, text, lang) == Translated(cache, oracle, text, lang)
            && CacheAfter(after, oracle, text, lang) == after
            && (lang == English || CacheKey(text, lang) in cache || RunChain(oracle, text, lang).answer.Some?
                ==> RequestsOf(after, oracle, text, lang) == [])
  {
    TranslateOutcomes(cache, oracle, text, lang);
    var after := CacheAfter(cache, oracle, text, lang);
    TranslateOutcomes(after, oracle, text, lang);
  }

  // ---------------------------------------------------------------------------
  // Bulk pass

  /** Every entry of `cache` not in `base` was stored by a winning chain run for `lang`. */
  ghost predicate CacheExtends(base: map<CacheKey, string>, cache: map<CacheKey, string>, oracle: Oracle, lang: Language) {
    && (forall k :: k in base ==> k in cache && cache[k] == base[k])
    && (forall k :: k in cache && k !in base ==>
          k.lang == lang != English && RunChain(oracle, k.text, lang).answer == Some(cache[k]))
  }

  /** What the cache accumulates during a pass does not change what any text resolves to. */
  lemma {:induction false} ExtendedCacheTranslatesAlike(base: map<CacheKey, string>, cache: map<CacheKey, string>,
                                                        oracle: Oracle, text: string, lang: Language)
    requires CacheExtends(base, cache, oracle, lang)
    ensures Translated(cache, oracle, text, lang) == Translated(base, oracle, text, lang)
  {
    var cacheKey := CacheKey(text, lang);
    if cacheKey in cache && cacheKey !in base {
      assert RunChain(oracle, text, lang).answer == Some(cache[cacheKey]);
    }
  }

  /** A further `translate` keeps the cache an extension of the one the pass started from. */
  lemma CacheAfterExtends(base: map<CacheKey, string>, cache: map<CacheKey, string>,
                           oracle: Oracle, text: string, lang: Language)
    requires CacheExtends(base, cache, oracle, lang)
    ensures CacheExtends(base, CacheAfter(cache, oracle, text, lang), oracle, lang)
  {
  }

  /** Every eligible fragment among the first `n` of `page` whose provider
      chain answered has its translation cached. */
  ghost predicate AnswersCached(cache: map<CacheKey, string>, page: seq<string>, n: nat, oracle: Oracle, lang: Language) {
    forall j :: 0 <= j < n && j < |page| && Eligible(page[j]) && RunChain(oracle, Trim(page[j]), lang).answer.Some? ==>
      CacheKey(Trim(page[j]), lang) in cache
  }

  /** A fragment is translated when its trimmed text has 1 to 199 characters. */
  predicate Eligible(fragment: string) {
    0 < |Trim(fragment)| < 200
  }

  /** A fragment after the bulk pass: an eligible fragment whose translation
      differs from its trimmed text is overwritten; any other is left alone. */
  function FragmentAfter(fragment: string, cache: map<CacheKey, string>, oracle: Oracle, lang: Language): string {
    var text := Trim(fragment);
    if 0 < |text| < 200 then
      var translated := Translated(cache, oracle, text, lang);
      if translated != text then translated else fragment
    else
      fragment
  }

  /** Only an eligible fragment changes, and then to the translation of its
      trimmed text; an eligible fragment whose translation differs from its
      trimmed text is always overwritten with it. */
  lemma FragmentAfterOutcome(fragment: string, cache: map<CacheKey, string>, oracle: Oracle, lang: Language)
    ensures var r := FragmentAfter(fragment, cache, oracle, lang);
            && (!Eligible(fragment) ==> r == fragment)
            && (r != fragment ==> r == Translated(cache, oracle, Trim(fragment), lang) != Trim(fragment))
            && (Eligible(fragment) && Translated(cache, oracle, Trim(fragment), lang) != Trim(fragment) ==>
                  r == Translated(cache, oracle, Trim(fragment), lang))
  {
  }

  /** The fragments after the bulk pass for a non-English `lang`, translated in page order. */
  function FragmentsAfter(page: seq<string>, cache: map<CacheKey, string>, oracle: Oracle, lang: Language): (r: seq<string>)
    ensures |r| == |page|
  {
    if page == [] then []
    else FragmentsAfter(page[..|page| - 1], cache, oracle, lang) + [FragmentAfter(page[|page| - 1], cache, oracle, lang)]
  }

  /** Fragment by fragment, the pass depends only on that fragment. */
  lemma {:induction false} FragmentsAfterAt(page: seq<string>, cache: map<CacheKey, string>, oracle: Oracle,
                                            lang: Language, k: nat)
    requires k < |page|
    ensures FragmentsAfter(page, cache, oracle, lang)[k] == FragmentAfter(page[k], cache, oracle, lang)
  {
    if k < |page| - 1 {
      FragmentsAfterAt(page[..|page| - 1], cache, oracle, lang, k);
    }
  }

  /** One more fragment of the page adds its own outcome at the end. */
  lemma FragmentsAfterSnoc(page: seq<string>, i: nat, cache: map<CacheKey, string>, oracle: Oracle, lang: Language)
    requires i < |page|
    ensures FragmentsAfter(page[..i + 1], cache, oracle, lang)
            == FragmentsAfter(page[..i], cache, oracle, lang) + [FragmentAfter(page[i], cache, oracle, lang)]
  {
    assert page[..i + 1][..i] == page[..i];
  }

  /** The page after the bulk pass for `lang`; nothing changes for English. */
  function BulkTranslated(page: seq<string>, cache: map<CacheKey, string>, oracle: Oracle, lang: Language): (r: seq<string>)
    ensures |r| == |page|
    ensures lang == English ==> r == page
  {
    if lang == English then page else FragmentsAfter(page, cache, oracle, lang)
  }

  /** The bulk pass touches only eligible fragments, writes the translation
      of the trimmed text wherever it changes a fragment, and, for a language
      other than English, does change every eligible fragment whose
      translation differs from its trimmed text. */
  lemma BulkTranslatedAt(page: seq<string>, cache: map<CacheKey, string>, oracle: Oracle, lang: Language, k: nat)
    requires k < |page|
    ensures var r := BulkTranslated(page, cache, oracle, lang);
            && (!Eligible(page[k]) ==> r[k] == page[k])
            && (r[k] != page[k] ==> lang != English && r[k] == Translated(cache, oracle, Trim(page[k]), lang) != Trim(page[k]))
            && (lang != English && Eligible(page[k]) && Translated(cache, oracle, Trim(page[k]), lang) != Trim(page[k]) ==>
                  r[k] == Translated(cache, oracle, Trim(page[k]), lang))
  {
    if lang != English {
      FragmentsAfterAt(page, cache, oracle, lang, k);
      FragmentAfterOutcome(page[k], cache, oracle, lang);
    }
  }

  // ---------------------------------------------------------------------------
  // Saved language

  /** The language the mount effect leaves: the saved code when it is one of
      the supported codes, otherwise the current one. */
  function RestoredLanguage(storage: map<string, string>, current: Language): (l: Language)
    ensures PreferredLanguageKey in storage && FromCode(storage[PreferredLanguageKey]).Some? ==>
              Code(l) == storage[PreferredLanguageKey]
    ensures !(PreferredLanguageKey in storage && FromCode(storage[PreferredLanguageKey]).Some?) ==> l == current
  {
    if PreferredLanguageKey in storage && storage[PreferredLanguageKey] != ""
       && FromCode(storage[PreferredLanguageKey]).Some?
    then
      FromCodeOnlyCodes(storage[PreferredLanguageKey]);
      FromCode(storage[PreferredLanguageKey]).value
    else current
  }

  /** Saving a language's code and loading it back on the next mount restores it. */
  lemma SaveThenRestore(storage: map<string, string>, lang: Language)
    ensures RestoredLanguage(storage[PreferredLanguageKey := Code(lang)], English) == lang
  {
    CodeRoundTrip(lang);
  }

  /** The language the bulk pass scheduled by `setLanguage` reads, as written:
      its timer callback closes over the render in which `setLanguage` was
      called, so it sees the language in force BEFORE the switch. */
  function ScheduledPassLanguageAsWritten(before: Language, requested: Language): Language {
    before
  }

  /** The language that pass is evidently meant to read: the one just chosen. */
  function ScheduledPassLanguage(before: Language, requested: Language): Language {
    requested
  }

  /** As written, switching from English translates nothing, whatever the page
      and the providers; as intended the same switch translates the page. */
  lemma StaleSwitchFromEnglish(page: seq<string>, cache: map<CacheKey, string>, oracle: Oracle, requested: Language)
    ensures BulkTranslated(page, cache, oracle, ScheduledPassLanguageAsWritten(English, requested)) == page
    ensures requested != English ==>
              BulkTranslated(page, cache, oracle, ScheduledPassLanguage(English, requested))
              == FragmentsAfter(page, cache, oracle, requested)
  {
  }

  /** A concrete input: the page holds "Select breed", every provider answers
      "Seleccionar raza", and the user switches from English to Spanish. */
  lemma StaleSwitchCounterexample()
    ensures var oracle: Oracle := (p: Provider, t: string, l: Language) => Body(true, 200, "Seleccionar raza");
            var page := ["Select breed"];
            && BulkTranslated(page, map[], oracle, ScheduledPassLanguageAsWritten(English, Es)) == page
            && BulkTranslated(page, map[], oracle, ScheduledPassLanguage(English, Es)) == ["Seleccionar raza"]
  {
    var oracle: Oracle := (p: Provider, t: string, l: Language) => Body(true, 200, "Seleccionar raza");
    var text := "Select breed";
    assert Trim(text) == text by {
      assert !IsWhitespace(text[0]);
      assert TrimStart(text) == text;
      assert !IsWhitespace(text[|text| - 1]);
    }
    assert Translated(map[], oracle, text, Es) == "Seleccionar raza";
    assert FragmentAfter(text, map[], oracle, Es) == "Seleccionar raza";
  }

  // ---------------------------------------------------------------------------
  // The provider's state

  class LanguageProvider {
    /** The static phrase table. */
    const phrases: PhraseTable
    var language: Language
    var isLoading: bool
    /** The translation cache (shared by the whole page). */
    var cache: map<CacheKey, string>
    /** Browser storage. */
    var storage: map<string, string>
    /** Bulk passes scheduled by `setLanguage` and not yet run, with the language each reads. */
    var scheduled: seq<Language>
    /** Every provider request sent so far. */
    ghost var requests: seq<Request>

    /** The phrase table has the source's shape, and no cache entry is keyed
        by an English target (`translate` returns before writing for 'en'). */
    ghost predicate Valid()
      reads this
    {
      WellFormedTable(phrases) && NoEnglishKeys(cache)
    }

    /** The provider as first rendered: English, empty cache, nothing loading. */
    constructor (phrases: PhraseTable, storage: map<string, string>)
      requires WellFormedTable(phrases)
      ensures Valid()
      ensures this.phrases == phrases && this.storage == storage
      ensures language == English && !isLoading && cache == map[] && scheduled == [] && requests == []
    {
      this.phrases := phrases;
      this.storage := storage;
      language := English;
      isLoading := false;
      cache := map[];
      scheduled := [];
      requests := [];
    }

    /** The mount effect: adopt the saved language if it is a supported code. */
    method LoadSavedLanguage()
      requires Valid()
      modifies this`language
      ensures Valid()
      ensures language == RestoredLanguage(storage, old(language))
    {
      if PreferredLanguageKey in storage {
        var saved := storage[PreferredLanguageKey];
        if saved != "" && FromCode(saved).Some? {
          language := FromCode(saved).value;
        }
      }
    }

    /** `setLanguage`: switch, save the code, and schedule a bulk pass unless
        the new language is English. */
    method SetLanguage(lang: Language)
      requires Valid()
      modifies this`language, this`storage, this`scheduled
      ensures Valid()
      ensures language == lang
      ensures storage == old(storage)[PreferredLanguageKey := Code(lang)]
      ensures RestoredLanguage(storage, English) == lang
      ensures scheduled == if lang != English then old(scheduled) + [ScheduledPassLanguage(old(language), lang)]
                           else old(scheduled)
    {
      CodeRoundTrip(lang);
      var before := language;
      language := lang;
      storage := storage[PreferredLanguageKey := Code(lang)];
      if lang != English {
        scheduled := scheduled + [ScheduledPassLanguage(before, lang)];
      }
    }

    /** `translate(text, targetLang)`: cache, then the English shortcut, then
        the three providers in order; a winning answer is cached before it is
        returned. */
    method Translate(text: string, targetLang: Language, oracle: Oracle) returns (r: string)
      requires Valid()
      modifies this`cache, this`isLoading, this`requests
      ensures Valid()
      ensures r == Translated(old(cache), oracle, text, targetLang)
      ensures cache == CacheAfter(old(cache), oracle, text, targetLang)
      ensures requests == old(requests) + RequestsOf(old(cache), oracle, text, targetLang)
      ensures isLoading == if CacheKey(text, targetLang) in old(cache) || targetLang == English
                           then old(isLoading) else false
    {
      TranslateOutcomes(cache, oracle, text, targetLang);
      var cacheKey := CacheKey(text, targetLang);
      if cacheKey in cache {
        return cache[cacheKey];
      }
      if targetLang == English {
        return text;
      }
      isLoading := true;
      var answer := CallProviders(text, targetLang, oracle);
      if answer.Some? {
        cache := cache[cacheKey := answer.value];
        isLoading := false;
        return answer.value;
      }
      isLoading := false;
      return text;
    }

    /** The three provider attempts inside `translate`, in order, each made
        only when the ones before it gave no acceptable answer. */
    method CallProviders(text: string, targetLang: Language, oracle: Oracle) returns (answer: Option<string>)
      modifies this`requests
      ensures answer == RunChain(oracle, text, targetLang).answer
      ensures requests == old(requests) + Sent(RunChain(oracle, text, targetLang).tried, text, targetLang)
    {
      var reply := oracle(MyMemory, text, targetLang);
      requests := requests + [Request(MyMemory, text, targetLang)];
      if reply.Body? && reply.responseStatus == 200 && reply.translatedText != "" {
        assert RunChain(oracle, text, targetLang) == ChainOutcome([MyMemory], Some(reply.translatedText));
        return Some(reply.translatedText);
      }

      reply := oracle(LibreTranslate, text, targetLang);
      requests := requests + [Request(LibreTranslate, text, targetLang)];
      if reply.Body? && reply.ok && reply.translatedText != "" {
        assert RunChain(oracle, text, targetLang) == ChainOutcome([MyMemory, LibreTranslate], Some(reply.translatedText));
        return Some(reply.translatedText);
      }

      reply := oracle(GoogleTranslate, text, targetLang);
      requests := requests + [Request(GoogleTranslate, text, targetLang)];
      assert RunChain(oracle, text, targetLang).tried == ProviderOrder;
      if reply.Body? && reply.ok && reply.translatedText != "" {
        return Some(reply.translatedText);
      }
      return None;
    }

    /** `t(key, fallback)`: the static entry for the current language if there
        is one; else the text itself in English; else `translate` of it. */
    method T(key: string, fallback: Option<string>, oracle: Oracle) returns (r: string)
      requires Valid()
      modifies this`cache, this`isLoading, this`requests
      ensures Valid()
      ensures StaticLookup(phrases, key, language).Some? ==>
                r == StaticLookup(phrases, key, language).value
                && cache == old(cache) && requests == old(requests) && isLoading == old(isLoading)
      ensures StaticLookup(phrases, key, language).None? && language == English ==>
                r == TextToTranslate(key, fallback)
                && cache == old(cache) && requests == old(requests) && isLoading == old(isLoading)
      ensures StaticLookup(phrases, key, language).None? && language != English ==>
                var text := TextToTranslate(key, fallback);
                && r == Translated(old(cache), oracle, text, language)
                && cache == CacheAfter(old(cache), oracle, text, language)
                && requests == old(requests) + RequestsOf(old(cache), oracle, text, language)
    {
      var phrase := StaticLookup(phrases, key, language);
      if phrase.Some? {
        return phrase.value;
      }
      var text := TextToTranslate(key, fallback);
      if language == English {
        return text;
      }
      r := Translate(text, language, oracle);
    }

    /** `tSync(key, fallback)`: never calls a provider, never writes the cache.
        The static entry comes first; then the cached translation of
        `fallback || key`, if there is one; else that text itself, which is
        always the answer in English. */
    function TSync(key: string, fallback: Option<string>): (r: string)
      reads this
      ensures StaticLookup(phrases, key, language).Some? ==> r == StaticLookup(phrases, key, language).value
      ensures var cacheKey := CacheKey(TextToTranslate(key, fallback), language);
              StaticLookup(phrases, key, language).None? && cacheKey in cache ==> r == cache[cacheKey]
      ensures var cacheKey := CacheKey(TextToTranslate(key, fallback), language);
              StaticLookup(phrases, key, language).None? && cacheKey !in cache ==> r == TextToTranslate(key, fallback)
      ensures Valid() && StaticLookup(phrases, key, language).None? && language == English ==>
                r == TextToTranslate(key, fallback)
    {
      SyncLookup(phrases, cache, language, key, fallback)
    }

    /** `translateAllContent` over the page fragments, for the language its
        closure reads: nothing happens for English; otherwise eligible
        fragments are translated one after another and overwritten only when
        the translation differs. */
    method TranslateAllContent(page: array<string>, lang: Language, oracle: Oracle)
      requires Valid()
      modifies this`cache, this`isLoading, this`requests, page
      ensures Valid()
      ensures page[..] == BulkTranslated(old(page[..]), old(cache), oracle, lang)
      ensures lang == English ==> cache == old(cache) && requests == old(requests) && isLoading == old(isLoading)
      ensures lang != English ==> !isLoading && CacheExtends(old(cache), cache, oracle, lang)
      ensures lang != English ==> AnswersCached(cache, old(page[..]), page.Length, oracle, lang)
    {
      if lang == English {
        return;
      }
      isLoading := true;
      TranslateFragments(page, lang, oracle);
      isLoading := false;
    }

    /** The loop of the bulk pass, one fragment after another. */
    method TranslateFragments(page: array<string>, lang: Language, oracle: Oracle)
      requires Valid() && lang != English
      modifies this`cache, this`isLoading, this`requests, page
      ensures Valid()
      ensures page[..] == FragmentsAfter(old(page[..]), old(cache), oracle, lang)
      ensures CacheExtends(old(cache), cache, oracle, lang)
      ensures AnswersCached(cache, old(page[..]), page.Length, oracle, lang)
    {
      ghost var original := page[..];
      ghost var expected := FragmentsAfter(original, old(cache), oracle, lang);
      var i := 0;
      while i < page.Length
        invariant 0 <= i <= page.Length
        invariant Valid()
        invariant CacheExtends(old(cache), cache, oracle, lang)
        invariant AnswersCached(cache, original, i, oracle, lang)
        invariant forall j :: 0 <= j < i ==> page[j] == expected[j]
        invariant forall j :: i <= j < page.Length ==> page[j] == original[j]
      {
        FragmentsAfterAt(original, old(cache), oracle, lang, i);
        TranslateAt(page, i, lang, oracle, old(cache));
        i := i + 1;
      }
    }

    /** One fragment of the bulk pass: an eligible fragment is translated and
        overwritten when the translation differs; no other fragment changes. */
    method TranslateAt(page: array<string>, i: nat, lang: Language, oracle: Oracle, ghost base: map<CacheKey, string>)
      requires Valid() && i < page.Length
      requires CacheExtends(base, cache, oracle, lang)
      modifies this`cache, this`isLoading, this`requests, page
      ensures Valid()
      ensures CacheExtends(base, cache, oracle, lang)
      ensures old(cache).Keys <= cache.Keys
      ensures lang != English && Eligible(old(page[i])) && RunChain(oracle, Trim(old(page[i])), lang).answer.Some? ==>
                CacheKey(Trim(old(page[i])), lang) in cache
      ensures page[i] == FragmentAfter(old(page[i]), base, oracle, lang)
      ensures forall j :: 0 <= j < page.Length && j != i ==> page[j] == old(page[j])
    {
      var text := Trim(page[i]);
      if 0 < |text| < 200 {
        ExtendedCacheTranslatesAlike(base, cache, oracle, text, lang);
        CacheAfterExtends(base, cache, oracle, text, lang);
        var translated := Translate(text, lang, oracle);
        if translated != text {
          page[i] := translated;
        }
      }
    }

    /** The timer of a scheduled bulk pass fires. */
    method RunScheduledPass(page: array<string>, oracle: Oracle)
      requires Valid() && scheduled != []
      modifies this`cache, this`isLoading, this`requests, this`scheduled, page
      ensures Valid()
      ensures scheduled == old(scheduled)[1..]
      ensures page[..] == BulkTranslated(old(page[..]), old(cache), oracle, old(scheduled)[0])
    {
      var lang := scheduled[0];
      scheduled := scheduled[1..];
      TranslateAllContent(page, lang, oracle);
    }
  }
}
