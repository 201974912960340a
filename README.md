# Enterprise document analysis and equipment back end, modelled in Dafny

This project models the logic core of an industrial AI copilot. The core has three parts.

**The enterprise document analyser.** This is `EnterpriseNLPProcessor` and its `main`.
- Every section of a rule table is scored by the keywords in the text, and the best section wins.
- PII pattern matches are counted per pattern with up to three samples, and the count is bucketed into a risk level.
- Keywords are letter-only words of three or more letters with stop words removed. They are ranked by frequency; ties keep first-occurrence order.
- Chunk analysis uses windows of 800 characters every 650. Blank windows are skipped.
- The document type comes from a first-match chain. The compliance score starts at 100 and loses points for risk and for missing sections.
- Recommendations follow from the score's inputs.
- All of this is assembled into one report. A blank input is an error.

**The retrieval pipeline's text helpers.**
- The JavaScript chunker and section detector.
- The question-section weights and the query-intent chain.
- Sentence splitting and noise filtering.
- The embedding router, which sends sensitive chunks to the local embedder and merges both answers back into chunk order.

**The equipment and error-code back end, and its front-end state.**
- Equipment records and search criteria, which become a parameterised `WHERE` clause.
- Per-user location permissions and narrowing, data stripping by role, statistics and the five-minute cache.
- The adapter base class.
- The error-code records and the validation in front of their store.
- The role gate.
- The front end's user table and stores.
- The error-code filter panel, severity badge and pagination of the two list pages.
- The chat page's conversation titles.

Each JavaScript and TypeScript source file is one Dafny module. `nlp_runner.py` is split by concern into five modules: `NlpSections`, `NlpPii`, `NlpKeywords`, `NlpChunks` and `NlpDocument`. Five modules are shared helpers that no single source file owns:
- `Wrappers`: `Option` and `Result`;
- `Sequences`: filtering and the stable sort;
- `Text`: characters, trimming and number text;
- `JsValue`: JavaScript values and their coercions;
- `KeywordRules`: the first-match keyword chains.

Stateful objects are classes whose methods state their whole new state:
- the adapter, the search criteria and the caches;
- the stores and the pages' state.

Each such method is tied to a specification function, and the properties are proved about that function. Loops that build values are methods with loop invariants:
- PII collection, keyword counting and chunk analysis;
- JavaScript chunking, question weights and embedding routing.

Outside services are parameters:
- regular expressions, embedders, database adapters and fetches;
- the clock and random ids.

## Model

| member | source | states |
|---|---|---|
| KeywordRules.FirstMatchSpec | backend/tests/system/scripts/nlp_runner.py:263-276 | an `if`/`elif` chain of keyword lists answers the fallback exactly when no list has a keyword in the text, and otherwise the label of the first list that has one |
| KeywordRules.FirstMatchLabel | backend/tests/system/scripts/nlp_runner.py:263-276 | the answer of such a chain is the fallback or one of its labels |
| NlpSections.KeywordScoreZero | backend/tests/system/scripts/nlp_runner.py:88-94 | a section scores zero exactly when none of its keywords occurs in the lower-cased text (every keyword weighs at least one word) |
| NlpSections.SectionChoiceUnique | backend/tests/system/scripts/nlp_runner.py:96-100 | the section chosen is determined by the text: two answers allowed by the choice rule are equal |
| NlpSections.DetectSection | backend/tests/system/scripts/nlp_runner.py:79-100 | the loop over `section_rules` returns "general" when every section scores zero, and otherwise the first section in declaration order whose score is the maximum |
| NlpSections.RuleKeywordsFound | backend/tests/system/scripts/nlp_runner.py:203 | `section_rules.get(section, [])` finds keywords only for a label of the table, and then exactly that rule's keywords |
| NlpSections.MatchCount | backend/tests/system/scripts/nlp_runner.py:204 | no more keywords match than there are |
| NlpSections.MatchCountBounds | backend/tests/system/scripts/nlp_runner.py:204 | every keyword matches exactly when each occurs in the text, and none matches exactly when none occurs |
| NlpSections.Share | backend/tests/system/scripts/nlp_runner.py:206 | `min(m / n, 1.0)` lies in [0, 1], is 1.0 exactly when all keywords match and 0.0 exactly when none does |
| NlpSections.SectionConfidenceRange | backend/tests/system/scripts/nlp_runner.py:197-206 | the confidence is 0.5 for "general" or a section without keywords, and otherwise lies in [0, 1], is 1.0 exactly when all the section's keywords occur and 0.0 exactly when none does |
| NlpSections.SectionRulesLabels | backend/tests/system/scripts/nlp_runner.py:19-53 | no rule of the processor's table is labelled "general" |
| NlpPii.Rank | backend/tests/system/scripts/nlp_runner.py:56-66 | every PII pattern has its position in the registration order of `pii_patterns` |
| NlpPii.RiskOf | backend/tests/system/scripts/nlp_runner.py:119-124 | HIGH exactly above 10 matches, MEDIUM exactly from 4 to 10, LOW exactly up to 3 |
| NlpPii.RiskMonotone | backend/tests/system/scripts/nlp_runner.py:119-124 | more matches never give a lower risk |
| NlpPii.DetailsSum | backend/tests/system/scripts/nlp_runner.py:110-117 | the detail counts add up to `total_matches` |
| NlpPii.DetailsFaithful | backend/tests/system/scripts/nlp_runner.py:112-116 | each detail carries its pattern's positive match count and its first (up to three) matches |
| NlpPii.DetailsCover | backend/tests/system/scripts/nlp_runner.py:110-116 | a pattern gets a detail exactly when it is one of the patterns scanned and it matched |
| NlpPii.DetailsPatterns | backend/tests/system/scripts/nlp_runner.py:110-116 | every detail is for one of the patterns scanned |
| NlpPii.DetailsOrdered | backend/tests/system/scripts/nlp_runner.py:110-116 | scanning patterns in ascending order gives details in the same order, each pattern once |
| NlpPii.RegisteredDetails | backend/tests/system/scripts/nlp_runner.py:107-117 | for the registered patterns: counts add up to the total, each detail is faithful, details follow registration order, and a pattern has a detail exactly when it matched |
| NlpPii.CollectDetails | backend/tests/system/scripts/nlp_runner.py:107-117 | the loop fills `detected` with the details of the registered patterns, in order, and `total_matches` with the number of all matches |
| NlpPii.TypeNames | backend/tests/system/scripts/nlp_runner.py:128 | `pii_types` lists the type name of every detail, in order |
| NlpPii.DetectPii | backend/tests/system/scripts/nlp_runner.py:102-133 | the report's details and total are those of the registered patterns, the risk follows the thresholds, `has_pii` and `requires_masking` hold exactly when something matched, and the type names follow the details |
| NlpKeywords.WordRun | backend/tests/system/scripts/nlp_runner.py:141 | the scanner behind `\b...\b` takes a maximal run of word characters: every character in it is a word character and the one after it is not |
| NlpKeywords.TokensShape | backend/tests/system/scripts/nlp_runner.py:141 | every token of `\b[A-Za-z]{3,}\b` has at least three letters, all taken from the text |
| NlpKeywords.CandidateShape | backend/tests/system/scripts/nlp_runner.py:141-144 | each candidate is a lower-case word of three or more letters that is not a stop word |
| NlpKeywords.Take | backend/tests/system/scripts/nlp_runner.py:154 | the slice `[:n]` is the prefix of length `min(n, len)` |
| NlpKeywords.CountFrequencies | backend/tests/system/scripts/nlp_runner.py:146-149 | the loop builds `word_freq` whose keys are exactly the candidate words, in first-occurrence order, each mapped to its number of occurrences |
| NlpKeywords.ExtractKeywords | backend/tests/system/scripts/nlp_runner.py:135-154 | `extract_enterprise_keywords` returns the first twenty words of the frequency ranking |
| NlpKeywords.KeywordsShape | backend/tests/system/scripts/nlp_runner.py:135-154 | at most twenty keywords, none twice, each a lower-case candidate of three or more letters that is not a stop word |
| NlpKeywords.KeywordsByFrequency | backend/tests/system/scripts/nlp_runner.py:152-154 | keywords come by non-increasing frequency |
| NlpKeywords.RankingStable | backend/tests/system/scripts/nlp_runner.py:147-152 | the stable sort keeps words of equal frequency in the order they first occur in the text |
| NlpKeywords.DroppedNoMoreFrequent | backend/tests/system/scripts/nlp_runner.py:152-154 | a candidate left out is no more frequent than any keyword kept, and is left out only when twenty were kept |
| NlpChunks.WindowEnd | backend/tests/system/scripts/nlp_runner.py:184 | `min(end, len(text))` lies after the start and within the text |
| NlpChunks.EmittedExactly | backend/tests/system/scripts/nlp_runner.py:165-193 | a position is a reported chunk start exactly when it is below `len(text)`, on the grid `0, step, 2*step, ...` and its window is not blank |
| NlpChunks.EmittedIncreasing | backend/tests/system/scripts/nlp_runner.py:165-193 | the reported starts rise strictly |
| NlpChunks.WindowBlank | backend/tests/system/scripts/nlp_runner.py:167-169 | `text[start:end].strip()` is empty exactly when the window is all whitespace |
| NlpChunks.AnalyzeWindow | backend/tests/system/scripts/nlp_runner.py:169-188 | a non-blank window is described by its number, positions, stripped content and length, section, full PII report of the content (details, total, risk, `has_pii`, `requires_masking`, type names), top ten keywords, a masking flag equal to `requires_masking`, and section confidence |
| NlpChunks.AppendWindow | backend/tests/system/scripts/nlp_runner.py:169-191 | the described window is appended with the next number and its start joins the starts |
| NlpChunks.StepWindow | backend/tests/system/scripts/nlp_runner.py:166-193 | one pass of the loop appends the window exactly when it is not blank and advances `start` by `chunk_size - overlap` |
| NlpChunks.ChunkAnalysis | backend/tests/system/scripts/nlp_runner.py:156-195 | one chunk per non-blank window start, in order, numbered from 0, each describing its window |
| NlpDocument.ClassifyIsFirstMatch | backend/tests/system/scripts/nlp_runner.py:258-276 | `_classify_document_type` is the first-match chain over its indicator table on the lower-cased text |
| NlpDocument.ClassifyFirstFiring | backend/tests/system/scripts/nlp_runner.py:258-276 | "general_document" exactly when no indicator occurs; otherwise the type of the first rule with an indicator that occurs |
| NlpDocument.ClassifyIgnoresCase | backend/tests/system/scripts/nlp_runner.py:260 | lower-casing the text first changes no classification |
| NlpDocument.ProcedureBeforeSafety | backend/tests/system/scripts/nlp_runner.py:263-270 | a text mentioning both "procedure" and "safety" is a standard operating procedure |
| NlpDocument.MissingCount | backend/tests/system/scripts/nlp_runner.py:291 | no more sections are missing than are required |
| NlpDocument.MissingCountZero | backend/tests/system/scripts/nlp_runner.py:290-292 | no section is missing exactly when every one occurs |
| NlpDocument.AssessCompliance | backend/tests/system/scripts/nlp_runner.py:278-294 | the deductions of `_assess_compliance` give the compliance score of the text and risk |
| NlpDocument.ComplianceScoreRange | backend/tests/system/scripts/nlp_runner.py:278-294 | the score is a multiple of five from 55 to 100, so the clamp never applies, and it is 100 exactly for a low-risk text naming purpose, scope and responsibility |
| NlpDocument.ComplianceMonotone | backend/tests/system/scripts/nlp_runner.py:282-286 | a higher risk never raises the score |
| NlpDocument.Recommendations | backend/tests/system/scripts/nlp_runner.py:296-312 | each advice appears exactly when its condition holds, in source order; the baseline message appears alone exactly when no other applies |
| NlpDocument.HighRiskAdvice | backend/tests/system/scripts/nlp_runner.py:296-304 | for a report of the detector, a high risk gives the masking advice first and the access-control advice second |
| NlpDocument.ReadingMinutes | backend/tests/system/scripts/nlp_runner.py:236 | `max(1, word_count // 200)` is at least one and is the whole number of 200-word minutes |
| NlpDocument.Stats | backend/tests/system/scripts/nlp_runner.py:213-237 | the character count is the length, the word count is zero exactly for an all-whitespace text, there is at least one line, and the reading time reads "<n> minutes" |
| NlpDocument.ReadingTimeDigits | backend/tests/system/scripts/nlp_runner.py:236 | the digits of the reading time spell the number of minutes back |
| NlpDocument.AnalyzeContent | backend/tests/system/scripts/nlp_runner.py:238-243 | the content record holds the section, document type, top fifteen keywords and keyword count of the whole text |
| NlpDocument.AnalyzeChunks | backend/tests/system/scripts/nlp_runner.py:245-248 | the chunk record holds the chunk analysis with size 800 and overlap 150, each chunk with its full PII report and masking flag, and its length |
| NlpDocument.AnalyzeCompliance | backend/tests/system/scripts/nlp_runner.py:249-253 | the compliance record holds the score, review required exactly for MEDIUM or HIGH risk, and the recommendations |
| NlpDocument.AnalyzeDocument | backend/tests/system/scripts/nlp_runner.py:208-256 | `enterprise_document_analysis` assembles the stats, content, full PII report as security record, chunk and compliance records of the text with the given timestamp and the fixed status and version |
| NlpDocument.Run | backend/tests/system/scripts/nlp_runner.py:314-352 | `main` fails with "No input text provided via stdin" exactly when the input is blank, and otherwise answers the whole analysis of the stripped input: stats, content, PII, chunk and compliance records |
| ChunkText.Slice | backend/src/rag/chunkText.js:10 | `text.slice(start, start + size)` is never longer than the window size |
| ChunkText.MakeChunk | backend/src/rag/chunkText.js:9-15 | a chunk holds the trimmed window, never longer than the window size, and the section detected on the untrimmed window |
| ChunkText.StepChunk | backend/src/rag/chunkText.js:9-17 | one pass of the loop appends the chunk of the window at `start` and moves `start` on by `chunkSize - overlap`, so the chunks collected plus those still to come do not change |
| ChunkText.ChunkText | backend/src/rag/chunkText.js:4-21 | `chunkText` returns the chunks of the windows starting at `0, s, 2s, ...` below the length, with `s = chunkSize - overlap` |
| ChunkText.ChunkTextDefaults | backend/src/rag/chunkText.js:4-21 | `chunkText(text)` with the default `chunkSize = 800` and `overlap = 150`, as the upload routes call it: `ceil(len / 650)` chunks, chunk `k` the trimmed 800-character window at `650k` (inside the text), labelled by `detectSection` |
| ChunkText.ChunksCount | backend/src/rag/chunkText.js:8-18 | there are `ceil(len / (chunkSize - overlap))` chunks |
| ChunkText.ChunkIndex | backend/src/rag/chunkText.js:8-18 | chunk `k` is made of the window at `k * (chunkSize - overlap)`, which lies inside the text |
| ChunkText.ChunkContent | backend/src/rag/chunkText.js:12-15 | a chunk's content is at most the window size and is empty exactly when the window is all whitespace; such chunks are kept |
| ChunkText.LabelIsDetectSection | backend/src/rag/chunkText.js:14 | each chunk's section is the one `detectSection` gives for its window |
| SectionDetector.DetectSectionLabels | backend/src/rag/sectionDetector.js:72-84 | `detectSection` answers one of the five rule sections or "general" |
| SectionDetector.DetectSectionFirstMatch | backend/src/rag/sectionDetector.js:72-84 | "general" exactly when no keyword occurs in the lower-cased text; otherwise the section of a rule with a keyword that occurs, no earlier rule having one |
| SectionDetector.DetectSectionIgnoresCase | backend/src/rag/sectionDetector.js:73 | detection ignores case |
| QuestionSections.DetectWeightsWith | backend/src/rag/questionSectionDetector.js:33-44 | the nested loops, which stop at a rule's first keyword found, compute the weight table of the rules |
| QuestionSections.DetectSectionWeights | backend/src/rag/questionSectionDetector.js:1-45 | `detectSectionWeights` is the weight table of its five rules on the question |
| QuestionSections.MatchedKeys | backend/src/rag/questionSectionDetector.js:33-40 | every key set is the section of a rule that fires |
| QuestionSections.MatchedEntries | backend/src/rag/questionSectionDetector.js:33-40 | with distinct sections, a rule's section is set exactly when the rule fires, and then to its weight |
| QuestionSections.WeightsSpec | backend/src/rag/questionSectionDetector.js:33-44 | the answer is never empty; `{general: 0.05}` is the answer exactly when no rule fires, and "general" never appears beside another key; otherwise a section is present exactly when its rule fires, with the rule's weight |
| QuestionSections.QuestionRulesWellFormed | backend/src/rag/questionSectionDetector.js:5-31 | the five rules name distinct sections, none of them "general" |
| QuestionSections.WeightKeys | backend/src/rag/questionSectionDetector.js:1-45 | the keys are among the five sections and "general" |
| QueryIntent.IntentIsFirstMatch | backend/src/rag/queryIntent.js:6-54 | the if-chain of `inferPreferredSection` is the first match over its table on the lower-cased question |
| QueryIntent.IntentLabels | backend/src/rag/queryIntent.js:6-54 | the answer is one of the five section labels or "general" |
| QueryIntent.IntentFirstFiring | backend/src/rag/queryIntent.js:6-54 | "general" exactly when no listed keyword occurs; otherwise the label of the first rule with a keyword that occurs |
| QueryIntent.TechnicalBeforeSafety | backend/src/rag/queryIntent.js:9-51 | a question mentioning both "technical" and "safety" is technical |
| QueryIntent.IntentIgnoresCase | backend/src/rag/queryIntent.js:7 | only the lower-cased question matters |
| SentenceExtractor.NextBoundarySpec | backend/src/nlp/sentenceExtractor.js:11 | the search finds the next place where a terminator `.`, `?` or `!` is followed by whitespace, and none lies before it |
| SentenceExtractor.RunEndSpec | backend/src/nlp/sentenceExtractor.js:11 | `\s+` takes the whole whitespace run: all of it is whitespace and the character after it is not |
| SentenceExtractor.Split | backend/src/nlp/sentenceExtractor.js:11 | `split` always returns at least one piece |
| SentenceExtractor.SplitRebuild | backend/src/nlp/sentenceExtractor.js:11 | splitting loses nothing: the pieces interleaved with the separators give the text back |
| SentenceExtractor.SplitCuts | backend/src/nlp/sentenceExtractor.js:11 | the cuts are exactly the split points: no piece holds one, every piece but the last ends with a terminator, every separator is a non-empty whitespace run, and no later piece starts with whitespace |
| SentenceExtractor.SplitPrefix | backend/src/nlp/sentenceExtractor.js:11 | the first piece is a prefix of the text |
| SentenceExtractor.PiecesOccur | backend/src/nlp/sentenceExtractor.js:11 | every piece is a slice of the text |
| SentenceExtractor.TrimAll | backend/src/nlp/sentenceExtractor.js:12 | `.map(s => s.trim())` keeps one entry per piece |
| SentenceExtractor.TrimOfSlice | backend/src/nlp/sentenceExtractor.js:12 | trimming a slice of the text leaves a slice of the text |
| SentenceExtractor.TrimmedPiece | backend/src/nlp/sentenceExtractor.js:12 | a trimmed piece is a slice of the text with no whitespace at either end |
| SentenceExtractor.SentencesSpec | backend/src/nlp/sentenceExtractor.js:7-13 | every sentence is longer than 20 characters, trimmed and a slice of the text, and every trimmed piece longer than 20 characters is kept |
| SentenceExtractor.EmptyText | backend/src/nlp/sentenceExtractor.js:8 | an empty text gives no sentences |
| NoiseFilter.FilterNoiseSpec | backend/src/nlp/noiseFilter.js:11-15 | `filterNoise` keeps the input order and keeps a sentence exactly when no noise pattern matches it |
| NoiseFilter.FilterNoiseIdempotent | backend/src/nlp/noiseFilter.js:11-15 | filtering twice drops nothing more |
| NoiseFilter.NoiseIgnoresCase | backend/src/nlp/noiseFilter.js:3-9 | the `i` flag: noise is recognised in any letter case |
| NoiseFilter.PageHeaderIsNoise | backend/src/nlp/noiseFilter.js:4 | "Page 12 of 40" matches `/^page \d+/i` |
| EmbeddingRouter.RouteChunks | backend/src/rag/embeddingRouter.js:29-41 | the `forEach` pass records each chunk's route (local when PII was masked or the section is policy, safety or compliance) and collects each provider's texts in order |
| EmbeddingRouter.Merge | backend/src/rag/embeddingRouter.js:62-69 | the `routing.map` pass gives entry `k` its provider and the embedding at the chunk's rank in that provider's answer |
| EmbeddingRouter.EmbedChunks | backend/src/rag/embeddingRouter.js:24-72 | each embedder is called only when it has texts, with exactly its texts; entry `i` is chunk `i`'s provider and embedding |
| EmbeddingRouter.TextsPartition | backend/src/rag/embeddingRouter.js:29-41 | every chunk goes to exactly one provider |
| EmbeddingRouter.TextsPrefix | backend/src/rag/embeddingRouter.js:29-41 | the texts collected so far are a prefix of the final texts |
| EmbeddingRouter.RankFindsText | backend/src/rag/embeddingRouter.js:62-69 | the `li`/`ei` counters point at the chunk's own text in its provider's request |
| EmbeddingRouter.RankIncreasing | backend/src/rag/embeddingRouter.js:62-69 | of two chunks routed to one provider, the earlier has the smaller rank |
| EmbeddingRouter.EveryChunkEmbedded | backend/src/rag/embeddingRouter.js:54-69 | when the provider a chunk is routed to answers one embedding per text, that chunk gets an embedding |
| Authorize.Authorize | backend/src/auth/authorize.js:1-17 | 401 exactly without a user, 403 exactly when the user's role is not allowed, `next()` exactly otherwise |
| Authorize.OneOutcome | backend/src/auth/authorize.js:2-16 | every request gets exactly one of the three outcomes |
| Authorize.DefaultForbidsAll | backend/src/auth/authorize.js:1 | with the default empty role list every authenticated request gets 403 |
| Authorize.MoreRolesAllowMore | backend/src/auth/authorize.js:9 | allowing more roles never turns a passed request into a refused one |
| JsValue.IntOrZero | backend/src/services/ErrorCodeService.js:97-101 | `parseInt(v) \|\| 0` is the parsed integer, and 0 exactly when the parse failed or gave 0 |
| JsValue.FloatOrZero | backend/src/services/ErrorCodeService.js:102-103 | `parseFloat(v) \|\| 0` is the parsed number, and 0 exactly when the parse failed or gave 0 |
| JsValue.ParseFloatReadsBack | backend/src/models/errorCode.js:101 | `parseFloat` reads a rendered natural number back |
| JsValue.TrailingTextIgnoredByParseFloat | backend/src/models/errorCode.js:101 | `parseFloat` ignores text after the number, such as a unit |
| JsValue.NumberReadsBack | backend/src/services/ErrorCodeService.js:43 | `Number`, behind `isNaN`, reads a rendered natural number back |
| JsValue.ParseFloatStopsAtComma | backend/src/models/errorCode.js:101 | `parseFloat` reads nothing after a comma, so an array's joined text parses as its first element's text does |
| JsValue.ParseIntStopsAtComma | backend/src/services/ErrorCodeService.js:46 | `parseInt` reads nothing after a comma either |
| JsValue.ArraysCoerce | backend/src/services/ErrorCodeService.js:43-46 | an array holding one number's text reads as that number to `Number`, `parseFloat` and `parseInt`; the empty array is 0 to `Number` and `NaN` to both parsers |
| EquipmentModel.LocationOf | backend/src/models/equipment.js:83-89 | the location object is present exactly when `plant` is truthy, and then carries plant, area and line |
| EquipmentModel.Equipment.constructor | backend/src/models/equipment.js:58-95 | `new Equipment(data)` copies the identifying fields, builds the location, and starts with no specifications and no status |
| EquipmentModel.Equipment.AddSpecification | backend/src/models/equipment.js:100-102 | `addSpecification` appends exactly one entry and changes nothing else |
| EquipmentModel.SpecificationsByTypeSpec | backend/src/models/equipment.js:107-109 | `getSpecificationsByType(t)` returns, in order, exactly the entries of type `t` |
| EquipmentModel.AddedSpecificationListed | backend/src/models/equipment.js:100-109 | an entry just added is listed under its type after the earlier ones |
| EquipmentModel.IntOr | backend/src/models/equipment.js:286-287 | `parseInt(x) \|\| fallback` is never 0 when the fallback is not |
| EquipmentModel.PaginationDefaults | backend/src/models/equipment.js:286-287 | an absent, zero or unparsable page or limit becomes 1 or 20 |
| EquipmentModel.PaginationNumbers | backend/src/models/equipment.js:286-288 | a non-zero decimal page is kept as given, negative or not, and the offset is `(page - 1) * limit` |
| EquipmentModel.SortingSpec | backend/src/models/equipment.js:291-292 | the order is "DESC" exactly for "desc" (case matters) and "ASC" otherwise; the column defaults to "equipment_number" when absent or empty |
| EquipmentModel.SearchCriteria.constructor | backend/src/models/equipment.js:271-293 | `new EquipmentSearchCriteria(params)` copies the ten filters and two flags and derives page, limit, offset and sorting |
| EquipmentModel.Candidates | backend/src/models/equipment.js:303-361 | the ten `if` blocks test ten filters |
| EquipmentModel.BlocksSpec | backend/src/models/equipment.js:298-367 | the k-th condition is the k-th set filter with placeholder `$k`, one value per condition, and the index ends one past the last placeholder |
| EquipmentModel.WhereNumbering | backend/src/models/equipment.js:298-367 | for the criteria's filters: condition k uses `$k`, `values.length` equals the number of conditions, `paramIndex = values.length + 1`, and ILIKE values are wrapped in `%` while equality values are bound as they are |
| EquipmentModel.WhereEmptyIffNoFilter | backend/src/models/equipment.js:364 | the clause is empty exactly when no filter is set, otherwise "WHERE " and the conditions joined with " AND " |
| EquipmentModel.SomeFilterSomeCandidate | backend/src/models/equipment.js:303-361 | a set filter is tested by some block |
| EquipmentModel.NoFilterNoCandidate | backend/src/models/equipment.js:303-361 | with no filter set, no block pushes |
| EquipmentModel.PushIfSet | backend/src/models/equipment.js:303-307 | one `if` block pushes its condition with the next placeholder and its value, and advances the index, exactly when its filter is set |
| EquipmentModel.BuildWhere | backend/src/models/equipment.js:298-367 | the ten blocks in source order compute the clause, values and next index of the filters |
| EquipmentModel.CandidatesPushed | backend/src/models/equipment.js:303-361 | the blocks run in source order, equipment number first and criticality last |
| EquipmentModel.SearchCriteria.BuildWhereClause | backend/src/models/equipment.js:298-368 | `buildWhereClause` gives the clause, values and next index of the criteria's own filters |
| EquipmentModel.PermissionsOf | backend/src/models/equipment.js:375-384 | each missing access list becomes empty |
| EquipmentModel.CanAccessEquipmentSpec | backend/src/models/equipment.js:389-420 | access is granted exactly to admins and to others whose plant, area and line lists and technician assignment list all allow the equipment |
| EquipmentModel.FalsyLineNeverDenies | backend/src/models/equipment.js:408-412 | a missing or falsy line is never checked |
| EquipmentModel.NoLocationOnlyAssignment | backend/src/models/equipment.js:394-417 | equipment without a location is refused only by a technician's assignment list |
| EquipmentModel.ViewRules | backend/src/models/equipment.js:425-441 | maintenance and technical specifications go to the same roles, cost viewers see both, technicians and supervisors see no costs, and a missing role sees nothing |
| EquipmentService.ApplyPermissionFilters | backend/src/services/EquipmentService.js:370-400 | admins are not narrowed; otherwise an absent plant or area becomes the first accessible one, a given plant, area or line outside its non-empty list is refused in that order, the line is never filled in, and nothing else changes |
| EquipmentService.NarrowingSpec | backend/src/services/EquipmentService.js:377-399 | after a successful narrowing the plant and area are in their non-empty lists, and a given line is in its non-empty list |
| EquipmentService.NarrowingAgreesWithLocation | backend/src/services/EquipmentService.js:377-448 | narrowing refuses exactly what `canAccessLocation` refuses once an absent plant is filled in |
| EquipmentService.CanAccessLocationSpec | backend/src/services/EquipmentService.js:426-448 | admins pass; others are refused exactly when a non-empty list excludes the plant or a given area or line |
| EquipmentService.AbsentAreaChecksDiffer | backend/src/services/EquipmentService.js:436-440 | the location check lets an absent area through where the equipment check refuses it |
| EquipmentService.FilterEquipmentData | backend/src/services/EquipmentService.js:405-420 | without technical permission the TECHNICAL entries are removed; without cost permission the two cost keys are removed from the performance data; nothing else changes |
| EquipmentService.StrippedSpecifications | backend/src/services/EquipmentService.js:407-411 | exactly the non-TECHNICAL entries are kept, in order, and stripping again changes nothing |
| EquipmentService.StrippedPerformanceData | backend/src/services/EquipmentService.js:414-419 | "cost" and "maintenance_cost" are removed and every other key is kept |
| EquipmentService.MaintenanceRecord.constructor | backend/src/models/equipment.js:206-236 | a maintenance record holds its work order, description and three costs |
| EquipmentService.HideMaintenanceCosts | backend/src/services/EquipmentService.js:197-205 | without cost permission every record's three costs become `null`; otherwise they are kept; other fields never change |
| EquipmentService.EquipmentStatistics | backend/src/services/EquipmentService.js:305-340 | admins get the adapter's statistics; others get counts over the accessible part of the narrowed search, and are refused exactly when narrowing refuses |
| EquipmentService.StatisticsNeverRefused | backend/src/services/EquipmentService.js:322-323 | narrowing an empty criteria never refuses |
| EquipmentService.StatsBounds | backend/src/services/EquipmentService.js:326-336 | the total is the number of accessible items and every count is at most the total, the four states together too |
| EquipmentService.StatesBounded | backend/src/services/EquipmentService.js:331-334 | no item is counted in two states |
| EquipmentService.CacheKeyInjective | backend/src/services/EquipmentService.js:453-455 | keys of operation names without ':' never collide |
| EquipmentService.KeyShape | backend/src/services/EquipmentService.js:453-455 | the key is the operation, a colon and the parameters |
| EquipmentService.ResultCache.constructor | backend/src/services/EquipmentService.js:16-17 | the cache starts empty |
| EquipmentService.ResultCache.Set | backend/src/services/EquipmentService.js:457-462 | `setCache` overwrites the key with the data and the time |
| EquipmentService.ResultCache.Get | backend/src/services/EquipmentService.js:464-474 | `getCache` answers the data up to five minutes old, otherwise nothing, deleting the expired key |
| EquipmentService.ResultCache.Clear | backend/src/services/EquipmentService.js:476-478 | `clearCache` empties the cache |
| EquipmentService.SetThenGet | backend/src/services/EquipmentService.js:457-474 | data stored at `t` is answered until `t` plus five minutes, after which the key is gone; other keys are untouched |
| EquipmentService.LookupShrinks | backend/src/services/EquipmentService.js:464-474 | a lookup never adds keys or changes kept entries, and a miss stays a miss |
| EquipmentAdapter.ConfigDefaults | backend/src/adapters/EquipmentAdapter.js:177-181 | each number defaults exactly when absent or 0 and is never 0; the adapter is disabled only by an explicit `false` |
| EquipmentAdapter.ValidateSpec | backend/src/adapters/EquipmentAdapter.js:187-233 | validation succeeds exactly for a named configuration of a known type with what that type needs; a missing name is reported first, then a missing type, then an unknown type by name |
| EquipmentAdapter.Mask | backend/src/adapters/EquipmentAdapter.js:85-86 | a secret is shown as '***' exactly when set |
| EquipmentAdapter.MaskIdempotent | backend/src/adapters/EquipmentAdapter.js:85-86 | masking twice equals masking once |
| EquipmentAdapter.InfoHidesSecrets | backend/src/adapters/EquipmentAdapter.js:76-88 | `getAdapterInfo` never shows a secret and shows every other configuration field as it is |
| EquipmentAdapter.Adapter.constructor | backend/src/adapters/EquipmentAdapter.js:9-15 | a new adapter is not connected, never checked, with health 'UNKNOWN' |
| EquipmentAdapter.Adapter.UpdateHealthStatus | backend/src/adapters/EquipmentAdapter.js:94-100 | `updateHealthStatus` sets the status and the check time and leaves the connection alone |
| EquipmentAdapter.Adapter.HandleError | backend/src/adapters/EquipmentAdapter.js:130-134 | `handleError` marks the adapter 'ERROR' and rethrows the same error |
| EquipmentAdapter.Adapter.Call | backend/src/adapters/EquipmentAdapter.js:21-71 | every operation of the base class throws "\<name\>() method must be implemented by concrete adapter" |
| ErrorCodeModel.NewErrorCode | backend/src/models/errorCode.js:7-31 | the constructor keeps a given frequency count and defaults only an undefined one to 0 |
| ErrorCodeModel.ErrorCodeJsonKeys | backend/src/models/errorCode.js:49-63 | `toJSON` renders exactly the eleven properties |
| ErrorCodeModel.ErrorCodeFields | backend/src/models/errorCode.js:33-47 | `fromDatabase` reads each field from its snake_case column |
| ErrorCodeModel.ErrorCodeRowToJson | backend/src/models/errorCode.js:33-63 | reading a row and rendering it renames every column to its camelCase property and adds nothing; a missing frequency count becomes 0 and a null one stays null |
| ErrorCodeModel.NewProcedure | backend/src/models/errorCode.js:67-89 | only an undefined time, tool list or success rate takes its default of 5, [] or 0 |
| ErrorCodeModel.ProcedureFromRow | backend/src/models/errorCode.js:91-104 | a procedure read from a row always has a tool list and a numeric success rate (0 when the column does not parse); a null time stays null and only a missing one becomes 5 |
| ErrorCodeModel.ProcedureJsonKeys | backend/src/models/errorCode.js:106-119 | `toJSON` renders exactly the ten properties, tools and success rate as held |
| ErrorCodeModel.NewResolution | backend/src/models/errorCode.js:123-143 | only an undefined success flag or step list takes its default of `true` or [] |
| ErrorCodeModel.ResolutionFromRow | backend/src/models/errorCode.js:145-171 | a resolution read from a row lists no steps when the column is falsy; only a missing success flag means success, a null one stays null |
| ErrorCodeModel.VocabulariesDistinct | backend/src/models/errorCode.js:175-197 | four severity levels and thirteen categories, none twice |
| ErrorCodeService.GetAllErrorCodesSpec | backend/src/services/ErrorCodeService.js:10-23 | a filter is passed on exactly when its severity and category are each falsy or known; the severity is checked first |
| ErrorCodeService.GetErrorCodeByCodeSpec | backend/src/services/ErrorCodeService.js:25-39 | a falsy or non-string code is refused, an unknown one is not found, and otherwise the upper-cased code's entry is answered |
| ErrorCodeService.LookupIgnoresCase | backend/src/services/ErrorCodeService.js:30 | a code and its lower-case spelling find the same entry |
| ErrorCodeService.GetErrorCodeByIdSpec | backend/src/services/ErrorCodeService.js:41-55 | an id is refused exactly when falsy or `isNaN`; a positive decimal id reaches the store as that number |
| ErrorCodeService.BlankIdReachesStoreAsNaN | backend/src/services/ErrorCodeService.js:43-46 | a blank id passes the check and the store is asked for `NaN` |
| ErrorCodeService.SearchErrorCodesSpec | backend/src/services/ErrorCodeService.js:57-67 | a search runs exactly for a string with a non-space character, with the trimmed term and the limit defaulting to 20 |
| ErrorCodeService.ProcedureQueriesValidate | backend/src/services/ErrorCodeService.js:69-91 | both procedure queries refuse exactly what the matching error-code lookups refuse, with the same message |
| ErrorCodeService.StatisticsReadCounts | backend/src/services/ErrorCodeService.js:93-109 | a count given as decimal text is read back as that count; a missing or null one is 0 |
| ErrorCodeService.GetTopErrorCodesSpec | backend/src/services/ErrorCodeService.js:111-121 | a truthy limit, arrays included, is refused exactly when `Number` of it is not in 1..100; a falsy one is passed on unchecked |
| ErrorCodeService.TopLimitsAccepted | backend/src/services/ErrorCodeService.js:111-116 | every whole number 1..100, as a number, as text or as an array holding that text, is passed on unchanged; the default is 10; an empty array is refused |
| ErrorCodeService.TotalTimeAppend | backend/src/services/ErrorCodeService.js:131 | the `reduce` over two lists of steps one after the other is the `reduce` over the second started from the total of the first |
| ErrorCodeService.NumericSteps | backend/src/services/ErrorCodeService.js:131 | steps whose estimates are numbers, booleans or falsy keep the total a number: the start plus what each adds |
| ErrorCodeService.TextStaysText | backend/src/services/ErrorCodeService.js:131 | once the total is text, every later estimate (or 0) is concatenated to it in order |
| ErrorCodeService.TotalTimeBounds | backend/src/services/ErrorCodeService.js:131 | numeric steps of 0 to `m` minutes each give a numeric total of 0 to `m` times their number |
| ErrorCodeService.TotalBecomesText | backend/src/services/ErrorCodeService.js:131 | the first step whose estimate is a non-empty string or an array turns the total into text: the number reached so far followed by that and every later term |
| ErrorCodeService.StringEstimateConcatenates | backend/src/services/ErrorCodeService.js:131 | estimates "15" then 10 give the text `"01510"`, not 25 |
| ErrorCodeService.DefaultStepsTotal | backend/src/services/ErrorCodeService.js:131 | steps with the default estimate total 5 minutes each |
| ErrorCodeService.FullDetailsSpec | backend/src/services/ErrorCodeService.js:123-137 | details exist exactly when the code is found and carry its procedures, their number and the JavaScript `+` total of their estimates |
| ErrorCodeService.QuickLookupSpec | backend/src/services/ErrorCodeService.js:139-161 | an exact answer exactly when the code is found; otherwise the search limited to 5, failing only for a term without a non-space character |
| ErrorCodeService.SeverityLevelsList | backend/src/services/ErrorCodeService.js:163-165 | four severity levels, CRITICAL among them |
| ErrorCodeService.ErrorCategoriesList | backend/src/services/ErrorCodeService.js:167-169 | thirteen categories, Lighting among them |
| UserTable.PermissionRules | frontend/lib/auth.ts:76-83 | only an admin may upload, delete or read the audit log; editors and viewers may do the same things; every role may view, chat and open documents; an admin may do all anyone may |
| UserTable.CreatedSpec | frontend/lib/auth.ts:85-103 | creating fails with "Username already exists" exactly when the lower-cased name is taken, changing nothing; otherwise exactly one entry is added under the lower-cased name and no other changes |
| UserTable.DeletedSpec | frontend/lib/auth.ts:109-116 | deleting answers true exactly when the name is not literally "admin" and its lower-cased form is stored, and removes only that entry |
| UserTable.AdminGuardIsCaseSensitive | frontend/lib/auth.ts:110-112 | "admin" cannot delete the admin account but "Admin" can |
| UserTable.Users.constructor | frontend/lib/auth.ts:14-27 | the table starts with the admin, editor and viewer accounts in that order |
| UserTable.ListingSpec | frontend/lib/auth.ts:105-107 | `Object.values` lists every key once: array-index keys first, by ascending value, then the other keys in insertion order |
| UserTable.ListingAppendNamed | frontend/lib/auth.ts:97-107 | a new key that is not an array index is listed last |
| UserTable.NumericNameListedFirst | frontend/lib/auth.ts:105-107 | a user named "7", added after the demo accounts, is listed before them |
| UserTable.ListedUsers | frontend/lib/auth.ts:105-107 | one user per stored key, each the user stored under the key in that position of the listing |
| UserTable.ListedAfterNamed | frontend/lib/auth.ts:85-107 | a user added under a key that is not an array index is appended to the listing, and no other user moves |
| UserTable.ListedAfterCreate | frontend/lib/auth.ts:85-107 | a user added under any new key makes the listing one longer and appears in it |
| UserTable.Users.AllUsers | frontend/lib/auth.ts:105-107 | `getAllUsers` lists the stored users in the order `Object.values` gives their keys |
| UserTable.Users.CreateUser | frontend/lib/auth.ts:85-103 | `createUser` updates the table as specified; a new user is listed, one more than before, and last when its key is not an array index |
| UserTable.Users.DeleteUser | frontend/lib/auth.ts:109-116 | `deleteUser` updates the table as specified, and the listing loses exactly one user when it answers true |
| UserTable.FilterDropsOne | frontend/lib/auth.ts:112 | removing a key listed once shortens the listing by one |
| UserTable.FilterUnchanged | frontend/lib/auth.ts:109-116 | removing an unlisted key leaves the listing as it is |
| Stores.AuthStore.constructor | frontend/lib/store.ts:17 | no user is logged in at first |
| Stores.AuthStore.Login | frontend/lib/store.ts:18-32 | `login` and `switchUser` only replace the user |
| Stores.AuthStore.Logout | frontend/lib/store.ts:26-28 | `logout` clears the user |
| Stores.DocumentStore.constructor | frontend/lib/store.ts:59 | the document list starts empty |
| Stores.DocumentStore.AddDocument | frontend/lib/store.ts:60 | `addDocument` appends at the end |
| Stores.DocumentStore.RemoveDocument | frontend/lib/store.ts:61-64 | `removeDocument` removes every document with the id and keeps the rest in order |
| Stores.RemovedDocuments | frontend/lib/store.ts:61-64 | after a removal no document has the id, every other is kept, in its old order |
| Stores.Bumped | frontend/lib/store.ts:121-129 | a message bumps exactly the conversations with its id: one more message and updated now; others are as they were |
| Stores.FindConversation | frontend/lib/store.ts:120 | `find` answers a conversation with the id exactly when one exists |
| Stores.BumpedTotal | frontend/lib/store.ts:121-129 | the total message count rises by the number of conversations with the id |
| Stores.BumpedUnknown | frontend/lib/store.ts:120-129 | a message for an unlisted conversation leaves the conversations as they are |
| Stores.Retitled | frontend/lib/store.ts:173-178 | only the conversations with the id get the new title |
| Stores.ActiveAfterClearSpec | frontend/lib/store.ts:136-139 | with ids listed once, the active conversation is cleared exactly when it belongs to the user |
| Stores.UserConversationsSpec | frontend/lib/store.ts:165-168 | `getUserConversations` lists exactly the user's conversations, each as often as stored, most recently updated first, ties in stored order |
| Stores.SearchConversationsSpec | frontend/lib/store.ts:187-193 | `searchConversations` lists exactly the user's conversations whose title contains the query, ignoring case, most recently updated first |
| Stores.MessageQueries | frontend/lib/store.ts:132-163 | `getUserMessages` and `getConversationMessages` keep exactly the messages with the id, in stored order |
| Stores.ChatStore.constructor | frontend/lib/store.ts:112-114 | no messages, no conversations, no active conversation |
| Stores.ChatStore.AddMessage | frontend/lib/store.ts:115-130 | `addMessage` appends the message and bumps its conversation |
| Stores.ChatStore.ClearMessages | frontend/lib/store.ts:131 | `clearMessages` empties the messages only |
| Stores.ChatStore.ClearUserMessages | frontend/lib/store.ts:133-140 | `clearUserMessages` removes the user's messages and conversations and clears the active conversation when it was the user's |
| Stores.ChatStore.CreateConversation | frontend/lib/store.ts:143-160 | `createConversation` puts a new empty conversation, titled "New Chat" by default, first and makes it active |
| Stores.ChatStore.SetActiveConversation | frontend/lib/store.ts:170-171 | `setActiveConversation` sets only the active id |
| Stores.ChatStore.UpdateConversationTitle | frontend/lib/store.ts:173-178 | `updateConversationTitle` retitles and changes nothing else |
| Stores.ChatStore.DeleteConversation | frontend/lib/store.ts:180-185 | `deleteConversation` removes the conversation and its messages and clears the active id when it was that one |
| Stores.DeletedConversation | frontend/lib/store.ts:180-185 | after deletion neither the conversation nor its messages are left, and all else is kept |
| Stores.AuditStore.constructor | frontend/lib/store.ts:224 | the audit log starts empty |
| Stores.AuditStore.AddLog | frontend/lib/store.ts:225 | `addLog` puts the newest entry first |
| StatusBadge.SeverityFromLevel | frontend/components/error-code-status-badge.tsx:120-125 | CRITICAL exactly from 4, HIGH exactly on [3, 4), MEDIUM exactly on [2, 3), LOW exactly below 2 |
| StatusBadge.SeverityMonotone | frontend/components/error-code-status-badge.tsx:120-125 | a higher level never gives a lower severity |
| StatusBadge.SeverityFromRank | frontend/components/error-code-status-badge.tsx:120-125 | a severity's own rank maps back to it |
| StatusBadge.SeverityText | frontend/components/error-code-status-badge.tsx:59-61 | the text has the severity's length, its first character upper-cased and the rest lower-cased |
| StatusBadge.SeverityTexts | frontend/components/error-code-status-badge.tsx:59-61 | the four severities read "Critical", "High", "Medium" and "Low" |
| StatusBadge.SeverityTextIdempotent | frontend/components/error-code-status-badge.tsx:59-61 | applying the text mapping twice changes nothing more |
| StatusBadge.ColoursAgree | frontend/components/error-code-status-badge.tsx:33-191 | the icon and the indicator of a severity share one hue |
| StatusBadge.SeverityColours | frontend/components/error-code-status-badge.tsx:33-44 | only an unknown severity gets the information icon; the indicator is red, orange, yellow or green for the four severities |
| StatusBadge.DefaultBadge | frontend/components/error-code-status-badge.tsx:15-20 | a badge given no `size`, `showText` or `showIcon` is the medium badge with icon and text: not the compact layout, medium text-badge and icon classes, and different from every other size and from the icon-only badge |
| StatusBadge.SizesDistinct | frontend/components/error-code-status-badge.tsx:25-77 | each size gives a different badge class and icon class in either layout |
| ErrorCodeFilters.With | frontend/components/error-code-filters.tsx:54 | `{ ...p, [k]: v }` sets the key and keeps every other key |
| ErrorCodeFilters.OrUndefined | frontend/components/error-code-filters.tsx:54 | `value \|\| undefined` turns only an empty or absent value into `undefined` |
| ErrorCodeFilters.FilterChangedSpec | frontend/components/error-code-filters.tsx:53-57 | the changed key holds the value, or nothing for an empty value; no other key changes |
| ErrorCodeFilters.SeverityToggleSpec | frontend/components/error-code-filters.tsx:65-69 | toggling the selected severity clears it, toggling another selects it, and two toggles from nothing end with nothing |
| ErrorCodeFilters.ActiveSpec | frontend/components/error-code-filters.tsx:81-89 | filters are active exactly when a filter key is non-empty; a cleared panel is inactive; setting a non-empty filter activates it and changing a sort key does not |
| ErrorCodeFilters.DebouncedSpec | frontend/components/error-code-filters.tsx:41-47 | the effect fires exactly when the settled term differs; it stores the term, or nothing for an empty one, keeps the other keys, and does not fire again |
| ErrorCodeFilters.SortToggleSpec | frontend/components/error-code-filters.tsx:205-253 | an inactive sort button starts with its first order, clicking the active one flips the order and a third click flips back; only the sort keys change |
| ErrorCodeFilters.SortIconAfterClick | frontend/components/error-code-filters.tsx:91-96 | after a click only the clicked button shows an icon, for the order it asked for |
| ErrorCodeFilters.Panel.constructor | frontend/components/error-code-filters.tsx:27-28 | the panel starts from the given filters and their search term |
| ErrorCodeFilters.Panel.FiltersPropChanged | frontend/components/error-code-filters.tsx:35-38 | a new `filters` property resets both copies and emits nothing |
| ErrorCodeFilters.Panel.HandleSearchChange | frontend/components/error-code-filters.tsx:49-51 | typing changes only the search box |
| ErrorCodeFilters.Panel.DebouncedSearch | frontend/components/error-code-filters.tsx:41-47 | the settled term is stored and emitted once, only when it differs |
| ErrorCodeFilters.Panel.HandleFilterChange | frontend/components/error-code-filters.tsx:53-57 | `handleFilterChange` updates one key and emits the new filters |
| ErrorCodeFilters.Panel.HandleSortChange | frontend/components/error-code-filters.tsx:59-63 | `handleSortChange` sets both sort keys and emits the new filters |
| ErrorCodeFilters.Panel.ClickSort | frontend/components/error-code-filters.tsx:205-253 | a sort button click sets its field and the toggled order and emits them |
| ErrorCodeFilters.Panel.HandleSeverityToggle | frontend/components/error-code-filters.tsx:65-69 | `handleSeverityToggle` toggles the severity through `handleFilterChange` |
| ErrorCodeFilters.Panel.ClearFilters | frontend/components/error-code-filters.tsx:71-79 | `clearFilters` resets to frequency descending with an empty search box and emits that |
| ErrorCodesPage.TotalPages | frontend/app/error-codes/page.tsx:56 | `Math.ceil(n / 12)` is the fewest pages of twelve that hold `n` codes, and 0 exactly for none |
| ErrorCodesPage.PageSliceSpec | frontend/app/error-codes/page.tsx:55-59 | pages before the last hold twelve codes, the last one to twelve, a page past the last none, and a page lists the codes from its start index in order |
| ErrorCodesPage.PagesPartition | frontend/app/error-codes/page.tsx:55-59 | the pages, one after the other, are the whole list in order |
| ErrorCodesPage.PageShift | frontend/app/error-codes/page.tsx:57-59 | page `p` of a list is page `p - 1` of the list without its first twelve codes |
| ErrorCodesPage.WindowSpec | frontend/app/error-codes/page.tsx:332-342 | the buttons are `min(5, total)` consecutive page numbers between 1 and the total, including the current page when it exists |
| ErrorCodesPage.ShowingSpec | frontend/app/error-codes/page.tsx:318 | the "Showing a-b" line counts exactly the codes on the page |
| ErrorCodesPage.NavigationStaysInRange | frontend/app/error-codes/page.tsx:153-159 | from an existing page, Previous, Next and every window button lead to an existing page, and a request for a missing page changes nothing |
| ErrorCodesPage.SettledSpec | frontend/app/error-codes/page.tsx:107-113 | once the effect has run, the page of a non-empty list exists and shows codes |
| ErrorCodesPage.QuickSearchAction | frontend/app/error-codes/page.tsx:115-126 | a blank term reloads the list; a term is searched for, trimmed, exactly when the user has a token |
| ErrorCodesPage.ListPage.constructor | frontend/app/error-codes/page.tsx:38-44 | the page starts with no codes, on page 1 |
| ErrorCodesPage.ListPage.LoadFinished | frontend/app/error-codes/page.tsx:61-83 | a successful load stores the returned codes, or none, and returns to page 1; a failed load empties the list |
| ErrorCodesPage.ListPage.SearchFinished | frontend/app/error-codes/page.tsx:124-140 | a successful search is stored like a load; a failed one keeps the list and the page |
| ErrorCodesPage.ListPage.PaginationEffect | frontend/app/error-codes/page.tsx:107-113 | the effect shows the current page's slice and returns to page 1 when the page is past the last |
| ErrorCodesPage.ListPage.HandlePageChange | frontend/app/error-codes/page.tsx:153-159 | `handlePageChange` moves only to an existing page |
| EquipmentPage.ResetPage | frontend/app/equipment/page.tsx:113 | the stored page is 1 when the new page equals the current one and the new page otherwise |
| EquipmentPage.FilterChangeSpec | frontend/app/equipment/page.tsx:109-116 | a changed filter on an unchanged page starts at page 1, a changed page is kept, and the other parameters are taken as given |
| EquipmentPage.WindowFromSpec | frontend/app/equipment/page.tsx:282-284 | the drawn numbers are consecutive from the first, as many slots as lie within the last page |
| EquipmentPage.WindowSpec | frontend/app/equipment/page.tsx:282-298 | the window starts at `max(1, page - 2)`, holds at most `min(5, totalPages)` numbers, none past the last page, and holds the current page when it exists |
| EquipmentPage.WindowShrinksAtEnd | frontend/app/equipment/page.tsx:282-298 | on page 6 of 6 only pages 4 to 6 are shown |
| EquipmentPage.NavigationSpec | frontend/app/equipment/page.tsx:274-305 | when nothing loads, Previous and Next are enabled exactly when their page exists |
| EquipmentPage.Page.constructor | frontend/app/equipment/page.tsx:50-55 | the filters start at page 1, limit 20, sorted by equipment number ascending |
| EquipmentPage.Page.HandleFiltersChange | frontend/app/equipment/page.tsx:109-116 | `handleFiltersChange` stores the new filters with the page reset as specified |
| EquipmentPage.Page.HandlePageChange | frontend/app/equipment/page.tsx:119-122 | `handlePageChange` changes only the page |
| ChatTitle.LastIndexOf | frontend/app/chat/page.tsx:66 | `lastIndexOf` answers the last position holding the character, or -1 |
| ChatTitle.LongTitleSpec | frontend/app/chat/page.tsx:65-70 | a long message gives at most 33 characters ending in "...", cut at the last space of the first 30 characters exactly when that space is after position 15, and otherwise after 30 characters |
| ChatTitle.GenerateTitleSpec | frontend/app/chat/page.tsx:58-71 | a trimmed message of at most 30 characters is its own title; a longer one is shortened as specified |
| ChatTitle.TitleShort | frontend/app/chat/page.tsx:58-71 | a title never exceeds 33 characters, and a short title is its own title |
| ChatTitle.Submit | frontend/app/chat/page.tsx:73-100 | a blank input or a pending reply sends nothing; otherwise the active conversation, created when none is active, gets the message, and is named after it when it is its first |

## Left out

**Approximations.**
- Regular expressions: the PII patterns are not modelled. Their matches are a parameter `findAll`, and every PII property holds for any matches.
- The keyword tokenizer `\b[A-Za-z]{3,}\b` is modelled as maximal runs of ASCII word characters that are letters only.
- The noise patterns are modelled directly as substring and prefix tests.
- Case mapping and whitespace are ASCII-only. Lower- and upper-casing act on A-Z, and whitespace is space, tab, newline, carriage return, vertical tab and form feed. Unicode case folding and Unicode spaces are not modelled.
- Floating point:
  - section confidence and question weights are exact `real` ratios;
  - the compliance score is a whole number, which the source's values always are;
  - `calculateOEE`, `getDurationHours`, the cosine similarity and the embedding vectors are not modelled.
- `parseFloat` and `Number` are modelled for signed decimal literals only. Exponents, `Infinity` and hexadecimal are not modelled.
- An array is coerced through its comma-joined text. The text of a number inside an array is taken to read back as that number, because number-to-text formatting is not modelled.

**Parameters instead of services.** These are not modelled; each becomes a parameter or an input:
- `datetime.now()`, `Date.now()`, `new Date()` and `Math.random()`: the clock and the random part of ids are parameters, and `isMaintenanceDue` and `isOverdue` are not modelled;
- the database adapters and SQL execution: results are functions of the query or a `Backend` value;
- the local embedder subprocess and the cloud embedding service;
- `fetch` in `authenticate` and its fallback;
- the chat request to the assistant and its reply.

**I/O and framework code.** These are not modelled:
- reading standard input and printing JSON in `main`;
- logging;
- React rendering, scheduling and debouncing: each handler or effect is one atomic method, and the debounced term is an input;
- browser persistence of the stores;
- `scrollTo`;
- toasts.

**Unmodelled operations.**
- Not modelled (identity hooks or lookups): `transformEquipmentData`, `transformMaintenanceData` and `transformStatusData`, which return their input; `isOperational` and `isCritical`, one-field equality tests that nothing in the core calls; the alarm and maintenance-record status helpers.
- Not modelled (asynchronous wrappers that call the database): `getUserPermissions`, `searchEquipment`, `getEquipmentById`, `getEquipmentStatus`, `getEquipmentAlarms`, `getEquipmentByLocation` and `getAdapterHealth`. The permission rules they apply are modelled.
- `getMaintenanceHistory` is represented only by its cost-nulling step.
- Not modelled: `JSON.stringify` of cache parameters; the cache key takes the rendered text as given.
- Not modelled: the `Object.values` order of the severity and category constants; the lists are taken in declaration order.

**Scope of the modelled data.**
- `EquipmentModel.SearchCriteria.BuildWhereClause`: `hasAlarms` and `maintenanceDue` are kept, but they are not part of the clause, as in the source.
- ErrorCodeFilters: only the search-parameter keys the panel reads or writes are modelled.
- The equipment page's other search parameters are one opaque `values` field.
- `UserTable`: keys that collide with `Object.prototype` names (such as `toString`) are not modelled. The table is a plain map.

**Deliberately weaker contracts.**
- NlpChunks.ChunkAnalysis: requires `chunkSize > overlap`. The Python loop has no guard, so with a non-positive stride it never ends; no configuration error is raised.
- ChunkText.ChunkText: requires `overlap < chunkSize` for the same reason.
- ErrorCodesPage.PageSliceSpec: requires `page >= 1`. The page only ever holds page numbers from 1 up, because `handlePageChange` and the effect keep it there.
- EquipmentService.EquipmentStatistics: the adapter's statistics for admins are an input, and the non-admin search is a function of the narrowed filters.
