# Newsletter content pipeline — a verified model

The newsletter scripts gather content from web APIs, shape it into a JSON
payload and render it into an HTML e-mail. This project models the
self-contained, sequential parts of those scripts in Dafny and proves what
they do:

- **Word of the day** (`word_of_the_day.dfy`). A Merriam-Webster Learner's
  dictionary entry is flattened into the 24 columns of a `word_of_the_day`
  row:
  - short definitions are split on the `{bc}` mark;
  - `vis` examples lose their `{it}`/`{/it}` tags;
  - grammatical notes and idiom phrases are collected;
  - US/UK pronunciations are chosen, and audio URLs built;
  - related words are collected.

  The row is then written inside a commit/rollback envelope around a
  `Connection` object. A step that would raise in Python yields `None`.
- **Content loader** (`content_loader.dfy`). This covers:
  - the recursive conversion of digit-string dictionary keys to integers, with its idempotence;
  - the payload validator and its error messages;
  - the rendered file name.
- **Exchange rates** (`exchange_rates.dfy`). This covers:
  - filtering of the fetched rates;
  - the cross-rate case analysis over `real`;
  - the cross-rate loop of `main`;
  - the in-place addition of `cross_rates` to the response document.
- **Development server** (`server.dfy`). This covers:
  - the `/` → `/index.html` rewrite of the request handler;
  - the file-change handler: a class holding the `last_modified` map, with a strict one-second debounce per path.
- **HTML→MJML converter** (`mjml_converter.dfy`). This covers:
  - the recursive element serialiser, over an element-tree datatype;
  - the line-oriented CSS parser, including its whole-file failure mode;
  - the attribute rewriting of `apply_css_styles`.
- **News APIs, flat variant** (`news_apis.dfy`). This covers:
  - parameter whitelisting and key insertion;
  - the unknown-API check;
  - `main`'s API-list normalisation and dispatch.
- **News APIs, `news/` variant** (`news_fetchers.dfy`). This covers:
  - the five `fetch_*` parameter builders;
  - the bounded retry loop with `2**attempt` backoff over an abstract network;
  - `run_apis` and `main`.

Shared modules model the Python values the scripts manipulate:

- `json.dfy` holds JSON values and Python's dynamic operations on them (`in`, subscripts, `.get`, iteration, `str`), each yielding `Raised` where Python raises.
- `dict.dfy` holds insertion-ordered dictionaries.
- `strings.dfy` holds `strip`, `split`, `join` and friends.
- `wrappers.dfy` holds `Option`.

## Model

| member | source | states |
|---|---|---|
| WordOfTheDay.ParseShortDefinitions | scripts/apis/content_fetchers/word_of_the_day.py:69-75 | The loop over the short-definition list computes `ShortDefinitions`, which fails when an element is not a string. |
| WordOfTheDay.Sections | scripts/apis/content_fetchers/word_of_the_day.py:73 | The first section of a split is a prefix of the text. |
| WordOfTheDay.SectionsAvoidMark | scripts/apis/content_fetchers/word_of_the_day.py:73 | No section produced by the `{bc}` split contains the mark. |
| WordOfTheDay.JoinSections | scripts/apis/content_fetchers/word_of_the_day.py:73 | Splitting on `{bc}` loses no text: joining the sections with the mark gives the input back. |
| WordOfTheDay.StrippedPieces | scripts/apis/content_fetchers/word_of_the_day.py:74 | Every kept piece is non-empty and has no surrounding whitespace. |
| WordOfTheDay.PiecesClean | scripts/apis/content_fetchers/word_of_the_day.py:73-74 | Every definition taken from one string is non-empty, stripped and free of `{bc}`. |
| WordOfTheDay.ShortDefinitionsClean | scripts/apis/content_fetchers/word_of_the_day.py:69-75 | Every parsed definition is non-empty, stripped and free of `{bc}`. |
| WordOfTheDay.ShortDefinitionsInOrder | scripts/apis/content_fetchers/word_of_the_day.py:72-74 | The definitions of a concatenated list are those of each part, in input order. |
| WordOfTheDay.CleanDefinitionsUnchanged | scripts/apis/content_fetchers/word_of_the_day.py:69-75 | Already-clean definitions come back unchanged, one each, so the empty list gives the empty list. |
| WordOfTheDay.PiecesOfClean | scripts/apis/content_fetchers/word_of_the_day.py:73-74 | A clean definition is its own only piece. |
| WordOfTheDay.SectionsOfPlain | scripts/apis/content_fetchers/word_of_the_day.py:73 | Text without the mark is a single section. |
| WordOfTheDay.RemoveItTags | scripts/apis/content_fetchers/word_of_the_day.py:85 | Removing italic tags never lengthens the text. |
| WordOfTheDay.RemoveItTagsPlain | scripts/apis/content_fetchers/word_of_the_day.py:85 | Text without braces passes through tag removal unchanged. |
| WordOfTheDay.ItalicSpan | scripts/apis/content_fetchers/word_of_the_day.py:85 | An `{it}…{/it}` span keeps its words and loses both markers. |
| WordOfTheDay.RemoveItTagsOnePass | scripts/apis/content_fetchers/word_of_the_day.py:85 | The substitution is a single pass: a tag formed by a deletion survives. |
| WordOfTheDay.ExtractExamples | scripts/apis/content_fetchers/word_of_the_day.py:77-87 | The nested loop over `dt` computes `Examples`, which fails where Python raises. |
| WordOfTheDay.ExamplesOfItem | scripts/apis/content_fetchers/word_of_the_day.py:81-86 | The loop over one `vis` item computes that item's examples, `ItemExamples`. |
| WordOfTheDay.ExampleOfEntry | scripts/apis/content_fetchers/word_of_the_day.py:82-86 | One `vis` entry computes `VisExample`: its `t` text without italics tags and stripped, nothing without `t`, and failure where Python raises. |
| WordOfTheDay.EntryWithText | scripts/apis/content_fetchers/word_of_the_day.py:83-86 | An entry holding only a text `t` gives exactly that text, with `{it}`/`{/it}` removed and then stripped. |
| WordOfTheDay.ItemOfOneEntry | scripts/apis/content_fetchers/word_of_the_day.py:81-86 | A `['vis', [entry]]` item gives exactly what its one entry gives. |
| WordOfTheDay.ExamplesStripped | scripts/apis/content_fetchers/word_of_the_day.py:85 | Every extracted example is stripped. |
| WordOfTheDay.NonVisItemIgnored | scripts/apis/content_fetchers/word_of_the_day.py:81 | A `dt` item that is not a list headed by `'vis'` adds no example. |
| WordOfTheDay.EntryWithoutTextIgnored | scripts/apis/content_fetchers/word_of_the_day.py:83 | A `vis` entry without `t` adds no example. |
| WordOfTheDay.SingleExample | scripts/apis/content_fetchers/word_of_the_day.py:82-86 | A single `vis` entry yields its text, with the tags removed and then stripped. |
| WordOfTheDay.ExamplesInOrder | scripts/apis/content_fetchers/word_of_the_day.py:80-86 | Examples come out in document order: those of a concatenation are those of each part in turn. |
| WordOfTheDay.CollectBlockSenses | scripts/apis/content_fetchers/word_of_the_day.py:99-105 | The walk over one definition block's `sseq` collects the data of every sense of two or more elements, in order. |
| WordOfTheDay.CollectSenseData | scripts/apis/content_fetchers/word_of_the_day.py:201-204 | The loop over one sense sequence collects the second element of every sense list of two or more elements, in order. |
| WordOfTheDay.CollectSenses | scripts/apis/content_fetchers/word_of_the_day.py:97-105 | The walk over `def` collects the sense data of every block, in order. |
| WordOfTheDay.GuardSkipsNonDicts | scripts/apis/content_fetchers/word_of_the_day.py:200 | With the `isinstance(def_block, dict)` guard, a block that is not a dict is skipped whatever it holds. |
| WordOfTheDay.UnguardedWalkRaises | scripts/apis/content_fetchers/word_of_the_day.py:98-99 | Without that guard, a block that is a number, a boolean or `None` makes the walk raise. |
| WordOfTheDay.ExtractGrammaticalInfo | scripts/apis/content_fetchers/word_of_the_day.py:89-107 | The nested loop computes `GrammaticalInfo`. |
| WordOfTheDay.AdditionalInfoIsGrams | scripts/apis/content_fetchers/word_of_the_day.py:101-105 | When the walk succeeds, `additional_info` is exactly the `gram` of every sense that has one, in traversal order. |
| WordOfTheDay.MainGram | scripts/apis/content_fetchers/word_of_the_day.py:91-97 | `main_gram` is the entry's `gram`, or `None` when it has none. Without `def`, `additional_info` is empty. |
| Strings.ReprString | scripts/apis/content_fetchers/word_of_the_day.py:185 | `repr` of a `gram` string starts and ends with the same quote, which is `"` exactly when the text holds `'` and no `"`. |
| Strings.ReprStringRoundTrip | scripts/apis/content_fetchers/word_of_the_day.py:185 | Reading the escapes between the quotes gives the original string back: the backslash, the quote, tabs, line breaks and control characters are escaped without loss. |
| Strings.ReprStringPlain | scripts/apis/content_fetchers/word_of_the_day.py:185 | Printable text without quotes or backslashes is written between single quotes unchanged. |
| WordOfTheDay.OneAdditionalGram | scripts/apis/content_fetchers/word_of_the_day.py:185 | With no main `gram` and one sense `gram`, the column is `additional_info: [<repr of the gram>]`. |
| WordOfTheDay.PhraseFromDro | scripts/apis/content_fetchers/word_of_the_day.py:114-128 | Building one phrase record, with `definition +=` and `examples.extend`, computes `PhraseOf`. |
| WordOfTheDay.ExtractPhrasesIdioms | scripts/apis/content_fetchers/word_of_the_day.py:109-130 | The loop over `dros` computes `PhrasesIdioms`. |
| WordOfTheDay.PhrasePerDro | scripts/apis/content_fetchers/word_of_the_day.py:112-129 | There is one phrase per `dro`, in order, and each carries that `dro`'s `drp` (or `None`). |
| WordOfTheDay.PhraseItemDrp | scripts/apis/content_fetchers/word_of_the_day.py:115 | A phrase's `phrase` field is its `dro`'s `drp`. |
| WordOfTheDay.NoDrosNoPhrases | scripts/apis/content_fetchers/word_of_the_day.py:111-112 | Without `dros` there are no phrases. |
| WordOfTheDay.GluedDefinitions | scripts/apis/content_fetchers/word_of_the_day.py:127 | The definitions of successive senses are concatenated with no separator between them. |
| WordOfTheDay.AudioUrl | scripts/apis/content_fetchers/word_of_the_day.py:173-175 | An audio URL starts with the Merriam-Webster audio base and `/`, and ends in `.mp3`. |
| WordOfTheDay.AudioUrlRoundTrip | scripts/apis/content_fetchers/word_of_the_day.py:174-175 | For a non-empty file name, the URL has the form `base/<sub>/<file>.mp3`, and the file name can be read back from it. |
| WordOfTheDay.AudioUrlOfName | scripts/apis/content_fetchers/word_of_the_day.py:174-175 | A non-empty file name gives `base/` then its subdirectory and file name, then `.mp3`. |
| WordOfTheDay.AudioFileNameOf | scripts/apis/content_fetchers/word_of_the_day.py:174-175 | The file name is read back from a URL of that form. |
| WordOfTheDay.SoundUrl | scripts/apis/content_fetchers/word_of_the_day.py:172-175 | An entry whose `sound` has `audio` gets a non-empty URL. |
| WordOfTheDay.SelectPronunciations | scripts/apis/content_fetchers/word_of_the_day.py:162-181 | The loop over the four local variables computes `PronunciationsOf` (start `''`, one step per entry). |
| WordOfTheDay.LaterEntryOverrides | scripts/apis/content_fetchers/word_of_the_day.py:169-181 | A later entry with `ipa` overwrites its own side: British if `l == 'British'`, American otherwise. The other side is left alone. |
| WordOfTheDay.EntryWithoutIpaIgnored | scripts/apis/content_fetchers/word_of_the_day.py:169 | An entry without `ipa` changes nothing. |
| WordOfTheDay.NoAmericanEntryLeavesUsUnset | scripts/apis/content_fetchers/word_of_the_day.py:163-171 | When every entry with `ipa` is British, the US pronunciation and US audio URL stay `''`. |
| WordOfTheDay.BritishEntryKeepsUs | scripts/apis/content_fetchers/word_of_the_day.py:168-175 | An entry without `ipa`, or with `ipa` and label British, leaves the US pronunciation and US audio URL as they were. |
| WordOfTheDay.RelatedWordFrom | scripts/apis/content_fetchers/word_of_the_day.py:215-228 | One `uro`'s record, built with the audio loop that breaks at the first sound, computes `RelatedWordOf`. |
| WordOfTheDay.CollectRelatedWords | scripts/apis/content_fetchers/word_of_the_day.py:212-229 | The loop over `uros` computes `RelatedWords`. |
| WordOfTheDay.FirstIpaDecides | scripts/apis/content_fetchers/word_of_the_day.py:218 | The pronunciation is the `ipa` of the first entry that has one. Later entries are never examined. |
| WordOfTheDay.FirstAudioDecides | scripts/apis/content_fetchers/word_of_the_day.py:222-228 | The audio URL comes from the first entry with a sound, whatever entries follow it. The loop breaks there. |
| WordOfTheDay.FirstAudioFound | scripts/apis/content_fetchers/word_of_the_day.py:222-228 | When the first entry has a sound, its URL is the result. |
| WordOfTheDay.FirstAudioSkips | scripts/apis/content_fetchers/word_of_the_day.py:222-228 | An entry without a sound is passed over. The search goes on with the next entries. |
| WordOfTheDay.NoSoundNoAudio | scripts/apis/content_fetchers/word_of_the_day.py:219 | Without any sound, `audio_file` stays `''`. |
| WordOfTheDay.RelatedWordPerUro | scripts/apis/content_fetchers/word_of_the_day.py:212-229 | There is one related word per `uro`, in order, carrying its `ure` and `fl` (default `''`). |
| WordOfTheDay.RelatedWordItemFields | scripts/apis/content_fetchers/word_of_the_day.py:216-217 | A related word's `word` and `part_of_speech` are its `uro`'s `ure` and `fl`. |
| WordOfTheDay.CollectEntryExamples | scripts/apis/content_fetchers/word_of_the_day.py:197-206 | The guarded walk over `def` computes `EntryExamples`. |
| WordOfTheDay.EntryExamplesStripped | scripts/apis/content_fetchers/word_of_the_day.py:197-206 | Every example of the entry is stripped. |
| WordOfTheDay.SenseExamplesStripped | scripts/apis/content_fetchers/word_of_the_day.py:204-206 | Every example of one sense is stripped. |
| WordOfTheDay.RelatedLabels | scripts/apis/content_fetchers/word_of_the_day.py:230 | There is one label per related word. |
| WordOfTheDay.PhraseLabels | scripts/apis/content_fetchers/word_of_the_day.py:234 | There is one label per phrase. |
| WordOfTheDay.WordRecordOf | scripts/apis/content_fetchers/word_of_the_day.py:140-234 | In every record produced, `shortdef_1..3` and `example_1..2` fill from the front. Each filled slot is clean or stripped. Each joined column is empty without items and starts with the first item otherwise. |
| WordOfTheDay.BuildWordRecord | scripts/apis/content_fetchers/word_of_the_day.py:140-234 | The field extraction computes `WordRecordOf`. |
| WordOfTheDay.RecordOfEntry | scripts/apis/content_fetchers/word_of_the_day.py:142-234 | For a dictionary entry, in every record produced `shortdef_1..3` and `example_1..2` fill from the front. |
| WordOfTheDay.AssembleRecord | scripts/apis/content_fetchers/word_of_the_day.py:142-234 | `shortdef_1..3` hold the first three definitions and `example_1..2` the first two examples, in order, each `None` past the end. The joined columns join all of them with `; `. Definitions and examples that fill from the front give columns that fill from the front. |
| WordOfTheDay.BuildEntryRecord | scripts/apis/content_fetchers/word_of_the_day.py:142-234 | The extraction over one entry computes `RecordOfEntry`. |
| WordOfTheDay.InvalidDataRejected | scripts/apis/content_fetchers/word_of_the_day.py:140-141 | Data that is not a non-empty list headed by a dict produces no record. |
| WordOfTheDay.ShortDefinitionSlots | scripts/apis/content_fetchers/word_of_the_day.py:190-194 | `shortdef_k` is the k-th parsed definition or `None`. The slots fill from the front, and the `'; '` join is empty exactly when there are none. |
| WordOfTheDay.EntryExampleSlots | scripts/apis/content_fetchers/word_of_the_day.py:207-209 | `example_1`/`example_2` are the first two examples or `None`. Both are stripped, and the join starts with the first. |
| WordOfTheDay.Connection.constructor | scripts/apis/content_fetchers/word_of_the_day.py:132 | A connection starts in autocommit mode, with no open changes. |
| WordOfTheDay.Connection.Execute | scripts/apis/content_fetchers/word_of_the_day.py:251-263 | The `UPDATE … WHERE id` changes only the open transaction, and only the row with that id. |
| WordOfTheDay.Connection.Commit | scripts/apis/content_fetchers/word_of_the_day.py:266 | The open transaction becomes the table. |
| WordOfTheDay.Connection.Rollback | scripts/apis/content_fetchers/word_of_the_day.py:271 | The open transaction is discarded. |
| WordOfTheDay.Updated | scripts/apis/content_fetchers/word_of_the_day.py:237-250 | The set of ids is unchanged, the row `word_id` (if present) gets the record, and every other row is untouched. |
| WordOfTheDay.UpdateWordOfTheDay | scripts/apis/content_fetchers/word_of_the_day.py:132-277 | The result is `True` iff extraction succeeds and the database accepts the write; then the row is committed. Called in autocommit mode, the new table is the old one with that row updated. Otherwise the table is as before (rollback). Autocommit is on again in every case. |
| ContentLoader.ConvertKey | scripts/utils/content_loader.py:23 | A non-empty all-digit string key becomes its integer value. Every other key is unchanged. |
| ContentLoader.Convert | scripts/utils/content_loader.py:20-29 | A dict stays a dict and a list stays a list. Any other value is returned unchanged. |
| ContentLoader.ConvertList | scripts/utils/content_loader.py:26-27 | A list keeps its length and order, and each item is converted. |
| ContentLoader.ConvertDictKeys | scripts/utils/content_loader.py:22-25 | A key is in the converted dict exactly when some original key converts to it. |
| ContentLoader.ConvertDictDistinct | scripts/utils/content_loader.py:22-25 | The converted dict has distinct keys, even when two original keys collide (`"1"` and `1`). |
| ContentLoader.ConvertDictEntries | scripts/utils/content_loader.py:22-25 | Without collisions, each entry is the converted key with the converted value, in order. |
| ContentLoader.ConvertedFixed | scripts/utils/content_loader.py:20-29 | An already-converted value is a fixed point. |
| ContentLoader.ConvertConverted | scripts/utils/content_loader.py:20-29 | A conversion's result is converted at every level. |
| ContentLoader.ConvertIdempotent | scripts/utils/content_loader.py:104 | Converting twice (at load and again in `main`) equals converting once. |
| ContentLoader.FirstMissing | scripts/utils/content_loader.py:55-59 | The result is the first required field, in list order, that is absent. There is none iff all are present. |
| ContentLoader.TopicError | scripts/utils/content_loader.py:67-69 | A topic dict lacking `title` or `news` raises a `ValueError` naming the topic. |
| ContentLoader.TopicsError | scripts/utils/content_loader.py:66-69 | Nothing is raised iff every topic is well formed. |
| ContentLoader.NewsError | scripts/utils/content_loader.py:65-72 | `news` without `topic` raises the "Invalid 'news' structure" error. Passing requires a `topic`. |
| ContentLoader.ValidationError | scripts/utils/content_loader.py:54-72 | A missing field raises the message naming the first one. Passing implies every required field is present. |
| ContentLoader.ValidateData | scripts/utils/content_loader.py:54-72 | The loop raises exactly `ValidationError(data)`, and `data` is left unchanged. |
| ContentLoader.MisspelledComingSoonRejected | scripts/utils/content_loader.py:55-63 | A payload with only `comming_soon` is rejected for `coming_soon`: the spelling fix can never run. |
| ContentLoader.FileName | scripts/utils/content_loader.py:92 | The file name ends in `.html`. |
| ContentLoader.FileNameRoundTrip | scripts/utils/content_loader.py:92 | `f"{username}_{date}.html"` gives back the user name and date, for a date without `_`. The inverse `ParseFileName` (with its helper `LastIndexOf`) has no counterpart in the source: it exists to state this round trip. |
| ExchangeRates.ProcessExchangeRates | scripts/apis/content_fetchers/exchange_rates_api.py:36-47 | A currency is kept iff it is requested and its rate is present and non-zero, with the response's rate. |
| ExchangeRates.CalculateCrossRate | scripts/apis/content_fetchers/exchange_rates_api.py:49-64 | `None` iff either currency is missing. From USD the result is `rates[to]`. To USD it is `1/rates[from]`. Otherwise it is `rates[to]/rates[from]`. A zero divisor raises. |
| ExchangeRates.CrossRateIsQuotient | scripts/apis/content_fetchers/exchange_rates_api.py:56-61 | With USD at 1, all three cases are the quotient `rates[to]/rates[from]`. |
| ExchangeRates.CrossRateReciprocal | scripts/apis/content_fetchers/exchange_rates_api.py:56-61 | The cross-rates `a→b` and `b→a` are reciprocal. |
| ExchangeRates.CrossRateNonZero | scripts/apis/content_fetchers/exchange_rates_api.py:49-64 | On non-zero rates, a cross-rate between known currencies is a non-zero rate. |
| ExchangeRates.CrossRates | scripts/apis/content_fetchers/exchange_rates_api.py:117-121 | The cross-rate loop computes `CrossRateTable`. |
| ExchangeRates.PrefixFailure | scripts/apis/content_fetchers/exchange_rates_api.py:117-121 | A pair that raises ends the loop. |
| ExchangeRates.CrossRateTableContents | scripts/apis/content_fetchers/exchange_rates_api.py:117-121 | On non-zero rates, a pair is stored iff it is listed and both currencies are known, and its value is its cross-rate. |
| ExchangeRates.CrossRatesOfResponse | scripts/apis/content_fetchers/exchange_rates_api.py:101-121 | With the configured currencies and pairs, the loop never raises. With all three rates usable, it stores the three pairs in order. |
| ExchangeRates.ThreePairTable | scripts/apis/content_fetchers/exchange_rates_api.py:104-121 | The table of the three configured pairs lists CAD→BRL, USD→BRL and USD→CAD with their rates. |
| ExchangeRates.NonZeroProcessed | scripts/apis/content_fetchers/exchange_rates_api.py:42-43 | Processed rates are non-zero. |
| ExchangeRates.PairNameInjective | scripts/apis/content_fetchers/exchange_rates_api.py:78 | Distinct pairs of codes without `_` get distinct `"{from}_to_{to}"` names. |
| ExchangeRates.CrossRateEntries | scripts/apis/content_fetchers/exchange_rates_api.py:77-80 | There is one named entry per stored cross-rate, in order. |
| ExchangeRates.CrossRatesObjectEntries | scripts/apis/content_fetchers/exchange_rates_api.py:77-80 | With ISO-style codes, `cross_rates` lists the table's pairs in order, by name, and loses none. |
| ExchangeRates.ResponseDocument.constructor | scripts/apis/content_fetchers/exchange_rates_api.py:111 | The document holds the fetched response. |
| ExchangeRates.ResponseDocument.SaveJsonResponse | scripts/apis/content_fetchers/exchange_rates_api.py:66-80 | Exactly one key, `cross_rates`, is set (appended if new). Every other key keeps its value and place. |
| Server.ServedPath | server.py:15-17 | `/` is served as `/index.html`. Every other path is unchanged. |
| Server.ServedPathIdempotent | server.py:16-17 | Rewriting twice is rewriting once. |
| Server.EmailTemplateHandler.constructor | server.py:14 | The handler holds the requested path. |
| Server.EmailTemplateHandler.DoGet | server.py:15-18 | `do_GET` reassigns its path to the served path. |
| Server.ReactionTo | server.py:47-56 | An event is acted on iff it is not a directory, has a watched extension and is new or more than 1 s after the recorded time. Rendering happens only for `.html`/`.json`. |
| Server.After | server.py:52-53 | Only the triggering path's entry may change, and it is set to the current time exactly when the event is accepted. A rejected event changes nothing. |
| Server.ChangeHandler.constructor | server.py:44-45 | `last_modified` starts empty. |
| Server.ChangeHandler.OnModified | server.py:47-56 | The reaction and the new `last_modified` are those of `ReactionTo`/`After`. |
| Server.RecordedAfterAccepted | server.py:52-53 | With a monotone clock, after an accepted change the recorded time is at least that change's time. |
| Server.AcceptedChangesAreSpaced | server.py:52 | Two accepted changes to one path are more than one second apart. |
| Server.FirstChangeAccepted | server.py:50-53 | The first watched change to a path is always acted upon. |
| Server.NeverRecorded | server.py:53 | A path no event mentions is never recorded. |
| MjmlConverter.MjmlTag | scripts/utils/inactive/mjml_converter.py:20-43 | A mapped tag becomes an `mj-` tag. Any other name is kept. |
| MjmlConverter.AttributeTexts | scripts/utils/inactive/mjml_converter.py:47 | There is one `k="v"` text per attribute, in attribute order. |
| MjmlConverter.MultiValueText | scripts/utils/inactive/mjml_converter.py:47 | A multi-valued attribute such as `class` is written as the Python `repr` of its list of words. |
| MjmlConverter.PlainWordsValueText | scripts/utils/inactive/mjml_converter.py:47 | Plain words are each written between single quotes inside brackets: `class="a b"` becomes `class="['a', 'b']"`. |
| MjmlConverter.ValueTextAvoids | scripts/utils/inactive/mjml_converter.py:47 | A value without `>` is written without `>`, whether it is a string or a list. |
| MjmlConverter.Convert | scripts/utils/inactive/mjml_converter.py:39-50 | A text node converts to its own string. An element becomes `<T …>…</T>` with `T` its mapped tag, and the space after `T` is always present. |
| MjmlConverter.ConvertKeepsText | scripts/utils/inactive/mjml_converter.py:39-50 | Removing the tags from the output gives the document's text in order: children are concatenated in order, and no text is lost. |
| MjmlConverter.ConvertThenRest | scripts/utils/inactive/mjml_converter.py:39-50 | The same holds for the output followed by further text. |
| MjmlConverter.ConvertAllThenRest | scripts/utils/inactive/mjml_converter.py:48 | The same holds for the concatenated conversions of a sequence of children. |
| MjmlConverter.ElementTextThenRest | scripts/utils/inactive/mjml_converter.py:50 | An element's output is its opening tag, its children's conversions and its closing tag. |
| MjmlConverter.OpeningTagAvoids | scripts/utils/inactive/mjml_converter.py:47-50 | An opening tag built from names and values without `>` contains no `>`. |
| MjmlConverter.SplitLines | scripts/utils/inactive/mjml_converter.py:86 | No line contains a line break. |
| MjmlConverter.ParseCssLine | scripts/utils/inactive/mjml_converter.py:87-95 | The body of the line loop computes `ParseLine`. |
| MjmlConverter.ParseDeclarations | scripts/utils/inactive/mjml_converter.py:91-94 | The declaration loop computes `Declarations`, which fails once a declaration raises. |
| MjmlConverter.StoreDeclaration | scripts/utils/inactive/mjml_converter.py:92-94 | One declaration computes `AddDeclaration`: it is skipped without `:`, raises with two or more `:`, and is stored stripped otherwise. |
| MjmlConverter.ParseCssFile | scripts/utils/inactive/mjml_converter.py:81-100 | The line loop computes `CssRules`, which is `[]` once any line raises. |
| MjmlConverter.ParseLines | scripts/utils/inactive/mjml_converter.py:86 | There is one parse per line, in line order. |
| MjmlConverter.DeclarationsFailure | scripts/utils/inactive/mjml_converter.py:91-94 | A declaration that raises ends the declaration loop. |
| MjmlConverter.CollectFailure | scripts/utils/inactive/mjml_converter.py:86-95 | A line that raises ends the line loop. |
| MjmlConverter.CollectRaises | scripts/utils/inactive/mjml_converter.py:86-95 | Any raising line makes the whole collection raise. |
| MjmlConverter.OneBadLineDiscardsFile | scripts/utils/inactive/mjml_converter.py:93-100 | A declaration with two or more `:` anywhere makes the whole file yield `[]`. |
| MjmlConverter.CollectShape | scripts/utils/inactive/mjml_converter.py:86-95 | A successful parse has no raising line and one rule per parsed line, each from its line. |
| MjmlConverter.ParseLineShape | scripts/utils/inactive/mjml_converter.py:87-88 | A line gives no rule iff it has no `{`. A selector is stripped and has no `{`. |
| MjmlConverter.ParsedCountIsRuleLines | scripts/utils/inactive/mjml_converter.py:86-95 | There are as many rules as lines containing `{`. |
| MjmlConverter.RulesInLineOrder | scripts/utils/inactive/mjml_converter.py:86-95 | When no line raises, the `i`-th rule is the parse of the `i`-th line containing `{`. |
| MjmlConverter.RulesShape | scripts/utils/inactive/mjml_converter.py:86-97 | A successful file has one rule per `{` line, in line order (the `i`-th rule is the parse of the `i`-th such line), and stripped selectors. |
| MjmlConverter.ParsedRuleShape | scripts/utils/inactive/mjml_converter.py:87-88 | Every selector parsed from the lines is stripped and has no `{`. |
| MjmlConverter.DeclarationsShape | scripts/utils/inactive/mjml_converter.py:91-94 | Declaration keys are distinct, and keys and values are stripped and free of `:`. |
| MjmlConverter.LastDeclarationWins | scripts/utils/inactive/mjml_converter.py:94 | A later `key: value` overwrites an earlier one for the same key. |
| MjmlConverter.Tag.constructor | scripts/utils/inactive/mjml_converter.py:53 | An element has a name and its attributes. |
| MjmlConverter.Tag.ApplyCssStyles | scripts/utils/inactive/mjml_converter.py:53-66 | The element's attributes become `StyledAttrs` of the old ones. |
| MjmlConverter.StyledAttrsEffect | scripts/utils/inactive/mjml_converter.py:55-66 | `img` gets `width="100px"`. `h1`/`h2`/`p` without `style` get `font-size="20px"`. With a `style` string the `.get` fails, the error is swallowed, and nothing else changes. |
| MjmlConverter.StyledAttrsIdempotent | scripts/utils/inactive/mjml_converter.py:53-66 | Styling twice is styling once. |
| NewsApis.ConfigTable | scripts/apis/content_fetchers/news_apis_all.py:24-60 | The configured names are the five APIs, and no whitelist contains `apikey`, so the key always goes under `apikey`. |
| NewsApis.AllowedParams | scripts/apis/content_fetchers/news_apis_all.py:59 | An entry is kept iff its key is whitelisted and its value is not `None`. |
| NewsApis.AllowedParamsDistinct | scripts/apis/content_fetchers/news_apis_all.py:59 | The filtered dict keeps its keys distinct. |
| NewsApis.RequestParamsContents | scripts/apis/content_fetchers/news_apis_all.py:57-60 | The sent parameters are the key under `apikey` plus each whitelisted argument not `None`, and nothing else. |
| NewsApis.FetchNews | scripts/apis/content_fetchers/news_apis_all.py:52-75 | The result is `FetchOutcome`. An unknown API gives `None` before any request, and so does a failed request. |
| NewsApis.SelectedApis | scripts/apis/content_fetchers/news_apis_all.py:91-94 | `None` selects every configured API, and a single string becomes a one-element list. |
| NewsApis.StringKeyed | scripts/apis/content_fetchers/news_apis_all.py:99 | Keyword arguments are accepted only when all keys are strings, and are kept in order. |
| NewsApis.FetchArguments | scripts/apis/content_fetchers/news_apis_all.py:99 | `**kwargs.get(api, {})` unpacks only a dict, and never rebinds `api_name`. |
| NewsApis.FetchSelected | scripts/apis/content_fetchers/news_apis_all.py:89-108 | `main`'s loop computes `NewsData` over the selected names. |
| NewsApis.AddApi | scripts/apis/content_fetchers/news_apis_all.py:97-101 | One pass of the loop raises iff the API is configured and its arguments cannot be unpacked. An unknown name is skipped. |
| NewsApis.FetchInto | scripts/apis/content_fetchers/news_apis_all.py:97-101 | The body of `main`'s loop computes `AddApi`. |
| NewsApis.NewsDataFailure | scripts/apis/content_fetchers/news_apis_all.py:97-108 | Once a prefix of the names raises, `main` returns `None`. |
| NewsApis.NewsDataFails | scripts/apis/content_fetchers/news_apis_all.py:97-108 | `main` fails iff some requested, configured API is given arguments that cannot be unpacked. |
| NewsApis.NewsDataContents | scripts/apis/content_fetchers/news_apis_all.py:96-101 | The result keys are exactly the requested configured names. Each holds `fetch_news` of that API with its own arguments. |
| NewsFetchers.Pow2 | scripts/apis/content_fetchers/news/news_apis_all.py:41 | `2**n` is at least 1. |
| NewsFetchers.FetchNews | scripts/apis/content_fetchers/news/news_apis_all.py:22-41 | The retry loop's result and its sleeps, in order, are those of `Retry`. |
| NewsFetchers.RetryFacts | scripts/apis/content_fetchers/news/news_apis_all.py:23-41 | The sleeps are `2**attempt` and are fewer than the attempts. Success returns the first successful attempt's data. Giving up happens only at the failed last attempt. `UnboundLocalError` arises only when no response was ever bound. |
| NewsFetchers.RespondedNeverUnbound | scripts/apis/content_fetchers/news/news_apis_all.py:37 | Once a response has been bound, the call never ends in `UnboundLocalError`. |
| NewsFetchers.FetchNewsOutcome | scripts/apis/content_fetchers/news/news_apis_all.py:22-41 | It crashes iff the first request raises. Otherwise it returns the first success or gives up after `max_retries` failures, sleeping 1, 2, 4, … and never after the last attempt. |
| NewsFetchers.NoAttempts | scripts/apis/content_fetchers/news/news_apis_all.py:23 | With no attempts allowed, it returns `None` without sleeping. |
| NewsFetchers.DropNone | scripts/apis/content_fetchers/news/news_apis_all.py:53 | An entry is kept iff its value is not `None`. |
| NewsFetchers.SentArgsEntries | scripts/apis/content_fetchers/news/news_apis_all.py:45-53 | Every sent argument is some parameter's value under its query key. |
| NewsFetchers.BuildParamsEntries | scripts/apis/content_fetchers/news/news_apis_all.py:43-113 | A builder sends exactly the non-`None` entries of its literal. |
| NewsFetchers.NewsdataIgnoresToDate | scripts/apis/content_fetchers/news/news_apis_all.py:43-53 | `fetch_newsdata` never sends `to_date`, under any name. |
| NewsFetchers.KeyAndQuerySent | scripts/apis/content_fetchers/news/news_apis_all.py:53-112 | The key entry is sent when the variable is set, and the query is sent when given. |
| NewsFetchers.BadArgumentsRaise | scripts/apis/content_fetchers/news/news_apis_all.py:142 | An unexpected keyword argument, or a missing first parameter, raises `TypeError`. |
| NewsFetchers.CallApi | scripts/apis/content_fetchers/news/news_apis_all.py:141-142 | A builder call is its parameters, then `fetch_news` with 3 retries. |
| NewsFetchers.RunApisLoop | scripts/apis/content_fetchers/news/news_apis_all.py:129-146 | The loop computes `RunApis`. |
| NewsFetchers.CallInto | scripts/apis/content_fetchers/news/news_apis_all.py:139-144 | One pass of the loop raises iff the name is in the table and its builder does not return. |
| NewsFetchers.RunApisFailure | scripts/apis/content_fetchers/news/news_apis_all.py:139-146 | Once a prefix of the names raises, so does `run_apis`. |
| NewsFetchers.FetchSelected | scripts/apis/content_fetchers/news/news_apis_all.py:148-161 | `main` runs the selected names (default: the five APIs), and returns `None` when `run_apis` raises. |
| NewsFetchers.RunApisContents | scripts/apis/content_fetchers/news/news_apis_all.py:129-146 | The result keys are exactly the requested names in the five-entry table. Each holds its builder's result. |
| NewsFetchers.FirstRequestFailureEndsRun | scripts/apis/content_fetchers/news/news_apis_all.py:159-161 | When a requested API's first request raises, the logging line raises instead, and `main` returns `None`. |

## Left out

- Network, SDK and database calls:
  - `requests.get`, `freecurrencyapi`, the Merriam-Webster fetch (`fetch_word_definition`) and the database cursor are left out;
  - responses are parameters: a `Network` function, or the fetched JSON;
  - the `UPDATE` statement's SQL text is reduced to the `Connection` class, and a failure of the statement or the commit is the boolean `databaseFails`.
- `insert_api_response` is called after a successful fetch in both news scripts, but scripts/utils/db_insert_api_calls.py is not part of this model. Its effect (a database insert) is not modelled, and neither is any exception it could raise.
- Clock, sleeps and files:
  - the server's `time.time()` is a parameter;
  - `time.sleep(2 ** attempt)` is recorded as a list of sleep durations, not performed;
  - reading and writing files (`json.dump`, `open`, `os.makedirs`, the timestamped file names) and `save_news_data`, `save_output` and `save_rendered_html`'s write are left out;
  - `save_json_response` is modelled up to the in-place change of `data`.
- Logging is left out everywhere.
- Jinja rendering (`render_template` in both scripts) and `SimpleHTTPRequestHandler.do_GET`'s file serving are left out. The server records that rendering was triggered.
- The watchdog observer thread, livereload, `threading.Timer` and the browser launch in `server.py` are concurrency and are left out.
- BeautifulSoup parsing and `find_all` in the MJML converter are left out. The element tree is a datatype, and the module-level run of the converter is not modelled. Which attributes arrive as lists (`class`, `rel` and the like) is the parser's decision. The tree holds each value as the parser hands it over: `Single` or `Multi`.
- The `main` of `word_of_the_day.py` (its database query and iteration over words) is I/O and is left out.
- Floating point: exchange rates and cross-rates are exact `real`s, with no IEEE rounding and no `:.4f` formatting. `str()` of a non-integral float, or of a whole one of magnitude 1e16 or more (which Python writes in exponent form), is not rendered digit by digit. A `real` has no negative zero, so `-0.0` is written `0.0`.
- `str.isdigit` and `str.isalpha` are their ASCII versions, with no Unicode digits or letters.
- Strings.IsPrintable: characters above U+00FF count as printable. Python's `repr` escapes the non-printable ones among them (U+2028, say) as `\uXXXX`; the model keeps them as they are.
- WordOfTheDay.WordRecordOf: the Python exceptions raised while extracting are collapsed into `None`. Since `update_word_of_the_day` catches every exception alike, this loses nothing it can observe.
- WordOfTheDay.ParseShortDefinitions: the regular expression `\s*\{bc\}\s*` is modelled as a split on `{bc}` followed by `strip`. The whitespace `\s*` consumes next to the mark is exactly the whitespace `strip` removes.
- WordOfTheDay.CollectSenses: the triple-nested `def`/`sseq`/sense loops are modelled as a walk collecting sense data, followed by a loop over the senses. The two agree because any exception ends the whole update.
- WordOfTheDay.InvalidDataRejected: a dict passed as `word_data` is assumed to have no integer key `0`; data decoded from JSON only has string keys.
- `meta_stems` (`', '.join(meta.get('stems', []))`) is computed only for the exception it can raise; it is not among the columns written.
