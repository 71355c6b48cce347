# CustomsAI core in Dafny

CustomsAI answers customs and export-control questions in Italian. This
project models its deterministic core and proves properties about it:

- **Registry** (registry.py). A code matcher driven by a registry of three
  tables: `dual_use`, `nomenclature` and `dual_use_correlations`. Each table
  has a word-bounded pattern. A query is scanned with every pattern, in
  registry order, and each table that matches is reported with the
  upper-cased leftmost code.
- **Retrieval** (retrieval.py). Keyword intent detection, which yields
  CODE_SPECIFIC, CLASSIFICATION, PROCEDURAL or GENERIC. Also the metadata
  parser, the row mapping of the structured lookup and of the vector RPC,
  and the `search_chunks` router with its fallbacks.
- **QueryNormalizer** (query_normalizer.py). The rewriting of the question
  into legal register before it is embedded, and the removal of
  conversational fragments.
- **Prompt** (prompt.py). The numbered CONTESTO blocks built from the
  retrieved chunks, and the two-message envelope sent to the model.
- **Pipeline** (main.py). The `run` orchestrator:
  - the final intent;
  - the collateral lookups;
  - the direct-text branch;
  - the embedding;
  - the PROCEDURAL+code branch and the vector-only branch;
  - the four ways a run ends: direct text, an answer, "no results" (exit
    0), or an error (exit 1);
  - the deterministic printing of normative sources (CELEX numbers and
    EUR-Lex links).
- **ScanDb** (tools/scan_db.py). The database scanner's logic:
  - registry-pattern matching over sampled codes;
  - pattern and match-mode heuristics;
  - the six-step validation of a registry entry, and the `status` of its
    result;
  - the draft entry proposed for an unknown table.
- **Patterns**, **Text**, **Wrappers** and **Config** are the supporting
  modules:
  - the regular expressions as predicates on ASCII text (a match is a
    maximal run of `[A-Za-z0-9_]` with the right shape, so `\b…\b`
    semantics hold);
  - string helpers (`strip`, `lower`, `upper`, `split()[0]`, `join`,
    `title`, decimal rendering);
  - Option and Result;
  - the TOP_K clamp.

The database, the embedding service and the language model are
function-typed parameters. In the Pipeline, `Services` holds
`lookupCollateral`, `vectorSearch`, `getEmbedding` and `generateAnswer`. In
Retrieval and ScanDb, a `Database` value holds the row queries and
`json.loads`. A run does not print text. It produces:

- the sequence of `Line` values it prints (`LineText` renders each one);
- the sequence of collaborator `Call`s it makes;
- a `Terminal` state, whose `ExitCode` is the process exit status.

Each imperative piece of the source is a `method` with loops. Each method
is proved equal to a specification function, and the properties are
lemmas about those functions:

- the registry scan loop;
- the row-mapping loop;
- the router's guarded early returns;
- the fragment-removal loop;
- the block-building loop;
- `run` and its collection loops;
- the `seen`-set loop of the sources printer;
- the validation that appends checks to a `ScanResult` object.

Where the code and the repository's tests or docstrings differ, the model
follows the code:

- **Intent order.** `detect_intent` tests for a dual-use-shaped code first,
  then classification keywords, then procedural ones (retrieval.py:32-39).
  A question such as "cosa devo fare per esportare 2B002?" is therefore
  CODE_SPECIFIC (`Retrieval.ProceduralQuestionWithCode`). PROCEDURAL with
  registry matches is reachable only through a 4-10 digit code
  (`Pipeline.ProceduralMatchesAreNumeric`).
- **Sources in the PROCEDURAL+code branch.** `_run_llm_and_print` receives
  the combined rows, so the CELEX of every combined chunk is printed. This
  includes the vector-search rows, not only the collateral ones
  (main.py:170, 177).
- **Fragment removal is a single `re.sub` pass per fragment.** It is not a
  fixpoint, so a fragment can survive: "dedevovo" becomes "devo"
  (`QueryNormalizer.DevoJoins`).
- **Missing helpers.** main.py calls `retrieval.lookup_collateral` and
  `retrieval.vector_search`, which retrieval.py does not define. They are
  parameters here.

## Model

| member | source | states |
|---|---|---|
| Config.TopK | config.py:25 | TOP_K lies in [5, 20]: 15 when unset, the set value when it is within the bounds, otherwise the nearer bound |
| Patterns.SearchIsLeftmostMatch | registry.py:95-97 | what a search returns is a match of the pattern, and no match starts further left |
| Patterns.FoundIffOccurs | registry.py:95-96 | a search succeeds exactly when the pattern occurs somewhere in the text |
| Patterns.LowerKeepsOccurs | registry.py:76-80 | lower-casing the text does not change whether a pattern occurs (the patterns are compiled IGNORECASE) |
| Patterns.DigitsHaveNoCode | registry.py:30-42 | a run of digits never contains a digit-letter-3-digit code |
| Registry.DetectCodeFromRegistry | registry.py:83-99 | the scan loop returns [] for a None or empty query, and otherwise the entries that match, in registry order, each with its upper-cased leftmost code |
| Registry.ScanKeepsOrder | registry.py:94-98 | the matched entries form a subsequence of the scanned list, so there are no more matches than entries |
| Registry.ScanHits | registry.py:94-98 | each reported code is the upper-cased leftmost match of its entry's pattern, and every entry whose pattern occurs is reported |
| Registry.HitsOccur | registry.py:94-98 | an entry is reported only when its pattern occurs in the query, and its code has no lower-case letter |
| Registry.ScanDistinct | registry.py:94-98 | when the scanned entries are distinct, no entry is reported twice |
| Registry.DetectShape | registry.py:24-99 | on the real registry, the result is the dual_use hit (if any), then nomenclature and dual_use_correlations together with one code |
| Registry.NumericEntriesTogether | registry.py:42-61 | nomenclature is matched exactly when dual_use_correlations is |
| Registry.NumericEntriesShareCode | registry.py:42-61 | the two numeric tables are always reported with the same code |
| Registry.NumericTail | registry.py:94-98 | the numeric matches come after the dual_use one, and are present exactly when a 4-10 digit word occurs |
| Registry.BareNumericCode | registry.py:30-42 | a bare 4-10 digit code matches the two numeric tables and never dual_use |
| Registry.LoneDualUseCode | registry.py:30-42 | a lone dual-use code matches dual_use only, reported upper-cased |
| Registry.DualUseExample | registry.py:30 | "2B002" is matched by dual_use alone |
| Registry.LowerCaseDualUseExample | registry.py:76-97 | "2b002" is accepted and reported as "2B002" |
| Registry.NumericExample | registry.py:42-61 | "8544" is matched by both numeric tables with code "8544" |
| Registry.RegistryWellFormed | registry.py:24-74 | registry ids are unique, the entries are distinct, and every fixed-CELEX source has a CELEX and a URL |
| Registry.DetectIsOrderedSubset | registry.py:77-98 | at most three matches, each entry at most once, in registry order |
| Registry.ScanMatchesOccurrences | registry.py:94-98 | an entry is reported if and only if it is in the list and its pattern occurs in the query |
| Registry.DetectMatchesOccurrences | registry.py:90-98 | for a non-empty query, the reported entries are exactly the registry entries whose pattern occurs |
| Retrieval.CodeWins | retrieval.py:29-33 | the intent is CODE_SPECIFIC if and only if the query contains a digit-letter-3-digit word, whatever keywords it also holds |
| Retrieval.KeywordLadder | retrieval.py:35-41 | without a code, classification keywords win over procedural ones, and GENERIC results exactly when neither list matches |
| Retrieval.EmptyQueryIsGeneric | retrieval.py:29-41 | a missing query and the empty query are both GENERIC |
| Retrieval.IntentIgnoresCase | retrieval.py:30 | lower-casing the query does not change its intent |
| Retrieval.ProceduralQuestionWithCode | retrieval.py:32-39 | "cosa devo fare per esportare 2B002?" is CODE_SPECIFIC |
| Retrieval.ParseMetadata | retrieval.py:52-60 | total: an object is kept, a string is decoded (or {} when decoding fails), anything else is {} |
| Retrieval.StructuredChunks | retrieval.py:79-89 | one chunk per row, in order, with the row's text, CELEX and parsed metadata, and similarity 1.0 |
| Retrieval.VectorChunks | retrieval.py:111-123 | one chunk per row, in order, with the row's own similarity |
| Retrieval.FiltersParam | retrieval.py:103 | an empty or missing filter list is sent as None, and any other list as itself |
| Retrieval.VectorSearchSql | retrieval.py:96-123 | one RPC call with the embedding, the row count and the filters, whose rows are mapped one by one |
| Retrieval.SearchChunks | retrieval.py:130-193 | the guarded calls with early returns give the routed result, calls and routing lines of the router specification, for a missing query as for a present one |
| Retrieval.NoQuerySearchesOnce | retrieval.py:130-193 | without a query the search is the single unfiltered one, never structured |
| Retrieval.RouteStructured | retrieval.py:138-148 | the structured flag is set exactly for CODE_SPECIFIC with a code whose lookup returned rows; that result has only the one lookup call, and every row has similarity 1.0 |
| Retrieval.StructuredOnlyForCodes | retrieval.py:132-148 | on a query, the structured path is taken exactly when it contains a code whose lookup is non-empty, with a falsy top_k meaning TOP_K |
| Retrieval.GenericSearchesOnce | retrieval.py:184-193 | GENERIC makes exactly one unfiltered search and returns its rows |
| Retrieval.CodeMissGoesGlobal | retrieval.py:138-193 | a code whose lookup is empty goes straight to the global search, with no filtered search in between |
| Retrieval.FilteredThenGlobal | retrieval.py:152-193 | PROCEDURAL and CLASSIFICATION search once with their filter, and search once more unfiltered only when that is empty |
| Retrieval.AtMostTwoCalls | retrieval.py:130-193 | one or two database calls, all with the effective row count; every exit but the structured one ends with a vector search |
| QueryNormalizer.RemoveAll | query_normalizer.py:83 | removing a fragment never lengthens the text |
| QueryNormalizer.RemoveProceduralPhrases | query_normalizer.py:63-85 | the loop computes lower-case, remove each fragment in order, strip; the result has no "?" and no upper-case letter |
| QueryNormalizer.RemoveAllKeepsChars | query_normalizer.py:83 | removal only ever deletes characters |
| QueryNormalizer.RemoveAllOfChar | query_normalizer.py:77-83 | removing a one-character fragment removes every copy of that character |
| QueryNormalizer.CleanedPhrasesAreClean | query_normalizer.py:77-85 | the cleaned text has no "?" and no upper-case letter |
| QueryNormalizer.DevoJoins | query_normalizer.py:74-83 | one pass of "devo" removal over "dedevovo" leaves "devo" |
| QueryNormalizer.NoLongFragment | query_normalizer.py:83 | a fragment longer than the text leaves it unchanged |
| QueryNormalizer.NormalizeQuery | query_normalizer.py:29-30 | an empty query is returned unchanged |
| QueryNormalizer.NormalizeProcedural | query_normalizer.py:32-43 | PROCEDURAL gives the legal-style prefix followed by the cleaned, stripped question |
| QueryNormalizer.NormalizeKeepsQuestion | query_normalizer.py:32-56 | CLASSIFICATION gives its prefix followed by the stripped question with its case kept; any other intent gives the stripped question |
| Prompt.Blocks | prompt.py:32-46 | one block per chunk, block k being chunk k numbered k+1 |
| Prompt.FormatContext | prompt.py:24-47 | the loop computes the blocks joined by the separator, and the result is "" exactly for no chunks |
| Prompt.BlockOf | prompt.py:37-45 | a block holds the header, then Titolo, Articolo, text and Fonte, each only when non-empty |
| Prompt.ContextStartsWithFirstHeader | prompt.py:32-47 | a non-empty context opens with "[Chunk 1]" |
| Prompt.ContextAppend | prompt.py:32-47 | one more chunk appends exactly one separator and one block numbered after the others |
| Prompt.BlockLinesShape | prompt.py:37-45 | the line count follows the non-empty fields; a chunk with no field still yields its header; a full chunk yields the five lines in order |
| Prompt.HeadersDistinct | prompt.py:37 | block headers are distinct for distinct numbers |
| Prompt.BuildMessages | prompt.py:50-58 | exactly two messages: the system prompt, then the user turn |
| Prompt.UserMessageCarriesBoth | prompt.py:54 | the user turn holds the context and the question unchanged, at fixed places, so both can be read back |
| Pipeline.EurlexLink | main.py:31-32 | the link is the EUR-Lex prefix followed by the CELEX number |
| Pipeline.EurlexLinkInjective | main.py:31-32 | distinct CELEX numbers get distinct links |
| Pipeline.PrintNormativeSources | main.py:35-74 | prints the fixed sources, then each new chunk CELEX; nothing is printed when no line was collected |
| Pipeline.CollectStaticSources | main.py:48-56 | the fixed-CELEX entries in the given order: label (when set), CELEX, URL, blank line |
| Pipeline.CollectChunkCelexes | main.py:58-66 | the `seen`-set loop appends the blocks of the chunk CELEX numbers, first-seen and deduplicated |
| Pipeline.FirstSeenIsDedup | main.py:59-66 | each CELEX of the chunks is listed exactly once, and nothing else is |
| Pipeline.FirstSeenExtends | main.py:59-66 | later chunks never reorder what was seen first |
| Pipeline.CelexLinesShape | main.py:64-66 | each CELEX gets its number, its EUR-Lex link and a blank line, in order |
| Pipeline.CelexFieldEntryAddsNothing | main.py:49-51 | a per-row CELEX entry adds no line, wherever it sits |
| Pipeline.SourcesSilent | main.py:68-69 | nothing is printed exactly when no entry has a fixed source and no chunk carries a CELEX |
| Pipeline.DisplayDirectText | main.py:81-85 | the loop prints the header, then each chunk's text followed by a rule |
| Pipeline.DirectTextShape | main.py:81-85 | the direct text shows every chunk in order, at lines 2k+1, each followed by a rule |
| Pipeline.CollectCollateral | main.py:134-140 | the loop computes the concatenated lookup rows and the entries whose lookup found rows |
| Pipeline.CollectedEvidence | main.py:134-140 | the evidence is every lookup's rows, concatenated in match order; there is evidence exactly when some entry is active |
| Pipeline.CollectedKeepsOrder | main.py:136-140 | the active entries are the matched entries in match order, some left out |
| Pipeline.CollectedActive | main.py:136-140 | an entry is active exactly when some match of it had a non-empty lookup |
| Pipeline.LookupCalls | main.py:136-137 | one lookup call per match, in match order, with its entry and code |
| Pipeline.GenerateAnswer | llm.py:22-26 | a context longer than MAX_CONTEXT_CHARS fails with the length message before the model is called |
| Pipeline.RunLlmAndPrint | main.py:88-97 | prints the answer header and answer, then the sources; nothing is printed when the answer fails |
| Pipeline.Run | main.py:104-203 | the method computes the printed lines, the calls and the terminal state of the run specification |
| Pipeline.EmbedAndAnswer | main.py:151-203 | steps 4 to 6 compute the embedding branch of the specification |
| Pipeline.FinishWithAnswer | main.py:172-203 | without evidence, exit 0; otherwise the model call, with exit 1 on its errors |
| Pipeline.BlankQuestionRefused | main.py:105-108 | a None or blank question prints "Errore: domanda vuota.", makes no call and exits 1 |
| Pipeline.CodeIntentHasMatches | main.py:111-124 | a CODE_SPECIFIC keyword intent always comes with a dual_use registry match |
| Pipeline.FinalIntentOfQuery | main.py:117-124 | the final intent is CODE_SPECIFIC exactly when the registry matched and the base intent is not PROCEDURAL; otherwise it is the base intent |
| Pipeline.ProceduralMatchesAreNumeric | main.py:161 | PROCEDURAL with matches happens only for a 4-10 digit code: nomenclature and dual_use_correlations with one code |
| Pipeline.SourcesOutputEnding | main.py:71-74 | the sources output is empty or ends with its closing rule |
| Pipeline.AnsweringLastLine | main.py:172-203 | a branch end prints "Nessun risultato trovato." for no results, the error line for a failure, and the answer or its sources otherwise |
| Pipeline.AnsweringWellEnded | main.py:172-203 | a branch end announces its terminal state, and calls the model at most once, last, with a non-empty context |
| Pipeline.ProceduralBranchWellEnded | main.py:161-182 | the PROCEDURAL+code branch ends well |
| Pipeline.VectorBranchWellEnded | main.py:185-203 | the vector-only branch ends well |
| Pipeline.EmbeddedWellEnded | main.py:151-203 | every run past step 3 ends well and never ends with direct text |
| Pipeline.CodeSpecificBranchEnds | main.py:133-148 | step 3 shows direct text exactly when the lookups found rows, and then makes only those lookups |
| Pipeline.DispatchEnds | main.py:126-203 | after the routing line, every branch ends well; direct text happens exactly for CODE_SPECIFIC with evidence |
| Pipeline.RunWellEnded | main.py:104-203 | every run ends well: the last line announces the exit code, and an answer always comes from the single, last model call |
| Pipeline.DirectTextPath | main.py:133-148 | a run ends with direct text exactly when its final intent is CODE_SPECIFIC and there is evidence; then it makes only the lookups |
| Pipeline.AnsweringCalls | main.py:172-203 | a branch end adds one model call exactly when there is evidence; no results exactly when there is none |
| Pipeline.AnsweringPrinted | main.py:172-203 | the printed tail: "Nessun risultato trovato." without evidence; with an answer, the header, the answer text and the sources |
| Pipeline.VectorBranchTrace | main.py:185-203 | the vector branch calls the filtered search (plus the retry when empty) or the global one, then the model on the rows found |
| Pipeline.EmbeddingFailure | main.py:154-158 | an embedding error prints the query and the error, and exits 1 after the single embedding call |
| Pipeline.ProceduralTrace | main.py:161-182 | embedding, lookups, one global search, then the model on collateral rows followed by vector rows; sources are from the active entries |
| Pipeline.VectorTrace | main.py:185-203 | embedding, the searches of the intent, then the model; sources use an empty entry list |
| Pipeline.RunDispatches | main.py:104-130 | a non-blank run is the dispatch of its final intent and its registry matches |
| Pipeline.CodeSpecificFallback | main.py:142-144 | CODE_SPECIFIC without evidence prints the fallback line and continues as GENERIC after the lookups |
| Pipeline.CodeSpecificFallbackTrace | main.py:142-203 | the GENERIC fallback makes one unfiltered search and attributes sources with no entry |
| Pipeline.ProceduralPath | main.py:151-182 | with a working embedding, PROCEDURAL+code calls embed, lookups, one global search and the model when rows exist |
| Pipeline.VectorPath | main.py:151-203 | with a working embedding, CLASSIFICATION and GENERIC call embed, their searches and the model when rows exist |
| ScanDb.ScanResult.constructor | tools/scan_db.py:102-108 | a new result has the given id, table and row estimate, and no checks |
| ScanDb.ScanResult.Status | tools/scan_db.py:110-114 | "error" exactly when some check failed, "ok" otherwise (also with no checks) |
| ScanDb.Hits | tools/scan_db.py:208 | the hit count is at most the number of samples |
| ScanDb.MatchRegistryPatterns | tools/scan_db.py:196-212 | nothing for no samples; otherwise the first registry entry whose pattern hits at least 80% of the stripped samples |
| ScanDb.FirstCoveringFound | tools/scan_db.py:206-212 | the entry found covers the samples and no earlier entry does; nothing found means that no entry covers them |
| ScanDb.CorrelationsNeverChosen | tools/scan_db.py:206-210 | dual_use_correlations is never chosen, since nomenclature has its pattern and comes first |
| ScanDb.FirstTokens | tools/scan_db.py:226 | one cleaned token per sample: the first word of the stripped sample |
| ScanDb.MinLength | tools/scan_db.py:230-231 | the minimum is the length of some token and is at most every token's length |
| ScanDb.MaxLength | tools/scan_db.py:230-231 | the maximum is the length of some token and is at least every token's length |
| ScanDb.GuessFromTokens | tools/scan_db.py:229-258 | a confidence of 0 exactly when there is no pattern, and always one of 0, 0.65, 0.75 or 0.80 |
| ScanDb.ApplyHeuristics | tools/scan_db.py:215-258 | no samples gives no pattern, exact, 0.0; no pattern comes exactly with confidence 0 and exact mode |
| ScanDb.NumericLadder | tools/scan_db.py:229-246 | all numeric: a spread of 4 or more gives prefix/0.75, equal lengths give exact/0.80, anything else gives exact/0.65 |
| ScanDb.NonNumericLadder | tools/scan_db.py:249-258 | not all numeric: equal-length alphanumerics give exact/0.65, anything else gives no pattern |
| ScanDb.GuessMatchesTokens | tools/scan_db.py:229-256 | the proposed pattern matches every token as a whole word |
| ScanDb.DetectPattern | tools/scan_db.py:261-293 | no samples gives no pattern plus one note; no pattern always comes with exact/0.0; there is always a note |
| ScanDb.RegistryHitWins | tools/scan_db.py:279-282 | a registry hit wins, with 0.95 and one note naming the entry |
| ScanDb.HeuristicNotes | tools/scan_db.py:283-293 | a heuristic result gets a second, warning note exactly when its confidence is below 0.70; no pattern gives one note |
| ScanDb.ConfidenceLevels | tools/scan_db.py:261-293 | the confidence is one of 0, 0.65, 0.75, 0.80 or 0.95, and it is 0.95 exactly on a registry hit |
| ScanDb.PairCountFormula | tools/scan_db.py:315 | the pair count equals n(n-1)/2 |
| ScanDb.PrefixPairsBound | tools/scan_db.py:309-315 | there are never more prefix-related pairs than pairs |
| ScanDb.ModeFromTokens | tools/scan_db.py:304-324 | fewer than two tokens give exact |
| ScanDb.DetectMatchMode | tools/scan_db.py:296-324 | fewer than two samples give exact |
| ScanDb.ModeRule | tools/scan_db.py:306-324 | with n >= 2 tokens the mode is prefix exactly when 10 * (prefix-related pairs) > n(n-1), that is more than 20% of the n(n-1)/2 pairs, or the lengths spread by 4 or more |
| ScanDb.DetectMatchModeRule | tools/scan_db.py:296-324 | the same rule for two or more samples, over their first tokens |
| ScanDb.PairsWithLastCounts | tools/scan_db.py:309-314 | the inner count is the number of pairs (i, last) from i on whose tokens are prefix-related |
| ScanDb.SplitRelatedPairs | tools/scan_db.py:309-314 | the related pairs are those among all but the last token plus, disjointly, those ending at the last one |
| ScanDb.PrefixPairsCounts | tools/scan_db.py:309-314 | the pair count is the size of the set of pairs i < j whose tokens are prefix-related |
| ScanDb.IdenticalTokensAllPairs | tools/scan_db.py:309-314 | with identical tokens, every pair is prefix-related |
| ScanDb.RepeatedCodeSuggestsPrefix | tools/scan_db.py:309-318 | two or more identical tokens give prefix |
| ScanDb.SpreadDecides | tools/scan_db.py:317-324 | a length spread of 4 or more gives prefix; with no related pair and a spread below 4, the mode is exact |
| ScanDb.FieldCheck | tools/scan_db.py:359-368 | a field check passes exactly when the field is among the columns |
| ScanDb.CoverageCheck | tools/scan_db.py:382-390 | the coverage check passes exactly when at least 80% of the samples hit |
| ScanDb.LookupCheck | tools/scan_db.py:393-407 | the lookup check passes exactly when the verification query succeeds with at least one row |
| ScanDb.SourceCheck | tools/scan_db.py:410-423 | the last check is named after the entry's source type; for a celex_field source it passes exactly when the table has a celex_consolidated column, for a static one exactly when both its CELEX and its URL are non-empty |
| ScanDb.ColumnChecks | tools/scan_db.py:359-368 | the code-field check, then the text-field check, each passing exactly when its field exists |
| ScanDb.SampleChecks | tools/scan_db.py:381-423 | coverage, lookup and source checks, in that order; they pass exactly when, respectively, coverage holds, the lookup answers a positive count, and the source is consistent |
| ScanDb.ValidateRegistryEntry | tools/scan_db.py:331-425 | a fresh result for the entry whose checks are those of the validation sequence |
| ScanDb.ChecksInOrder | tools/scan_db.py:346-425 | the check names are always a prefix of the fixed order |
| ScanDb.TableMissing | tools/scan_db.py:347-352 | a missing table yields exactly one failed check |
| ScanDb.FieldsMissing | tools/scan_db.py:359-370 | a missing code field stops after the two field checks; a missing text field alone does not stop the sequence |
| ScanDb.NoDataStops | tools/scan_db.py:373-379 | no samples stops the sequence right after a failed has_data |
| ScanDb.AllStepsRun | tools/scan_db.py:346-425 | when every step runs, the status is "ok" exactly when the text field exists, coverage holds, the verification query for the first sample's code answers a positive count, and the source has its CELEX column or its CELEX and URL |
| ScanDb.OrPlaceholder | tools/scan_db.py:525-527 | the value when present and non-empty, "???" otherwise |
| ScanDb.DraftDictOf | tools/scan_db.py:520-540 | id and table are the table name, the mode is kept, and the source is celex_field exactly when the table has that column, otherwise static with "???" placeholders |
| ScanDb.DraftPlaceholders | tools/scan_db.py:525-527 | a missing or empty field or pattern becomes "???"; a detected pattern is written as its regular expression |
| ScanDb.DraftLabel | tools/scan_db.py:528 | the label has the table name's length, each "_" turned into a space, each letter upper-cased at the start or after a non-letter and lower-cased after a letter |
| ScanDb.TitleCases | tools/scan_db.py:528 | title-casing keeps the length and non-letters, upper-cases a letter after a non-letter and lower-cases one after a letter |
| ScanDb.FormatDraftEntry | tools/scan_db.py:543-569 | a block of 10 lines for a celex_field source and 15 for a static one, opened and closed by the braces; lines 1 to 7 quote the table name as id and table, the fields or the placeholder, the raw pattern, the label and the match mode |
| ScanDb.QuotedReadBack | tools/scan_db.py:549-555 | the value of a quoted line is read back from a fixed offset after key and padding, up to the closing quote and comma |

## Left out

- I/O. Supabase queries and RPCs, `embeddings.get_embedding`, the OpenAI
  call, `retrieval.lookup_collateral` and `retrieval.vector_search` are
  function-typed parameters, and so is `json.loads`. Printing is modelled
  as the sequence of `Line` values printed, and `sys.exit` as the terminal
  state of a run. `search_chunks`' prints are a sequence of `Trace` values.
- Exceptions that main.py does not catch: a lookup or vector-search
  exception, and any other exception. Only the caught embedding error and
  the caught model errors are modelled, as `Err` results.
- Pipeline.GenerateAnswer: models `generate_answer` up to its length guard
  (llm.py:22-26), then the model call as a parameter. As written,
  llm.py:27-29 passes the keyword `used_structured_by_code` to
  `build_messages`, which prompt.py:50 does not accept. So every model call
  whose context is within the limit would raise a TypeError, which main.py
  does not catch. That crash is not modelled.
- The OpenAI client and message creation (llm.py:30-36), and the
  `embeddings`, `structured_lookup` and `config` environment loading.
  Config.TopK takes the value of the TOP_K variable already parsed; a
  value that is not an integer, which makes `int()` raise, is not
  modelled.
- Unicode. Strings are sequences of characters, and `strip`, `lower`,
  `upper`, `\d`, `\b` and IGNORECASE are modelled for ASCII only.
- Floating point. Similarity scores are opaque `real` values that are only
  copied. The 0.80 coverage threshold is `5 * hits >= 4 * n`, and the 0.20
  pair ratio is `5 * pairs > n(n-1)/2`, both over exact rationals.
  Confidences are in hundredths. The `{:.0%}` rendering of a coverage ratio
  is a parameter of the scanner's database.
- ScanDb.ApplyHeuristics and ScanDb.DetectMatchMode require every sample
  to have a non-space token. ScanDb.DetectPattern requires it only when no
  registry entry covers the samples, which is when it runs the heuristics.
  ScanDb.ValidateRegistryEntry requires it of the first sample. The source
  indexes `split()[0]` there, which raises on a blank sample
  (tools/scan_db.py:226, 304, 393). That crash is not modelled.
- The scanner's `profile_unknown_table` (RPC sampling, a floating-point
  name score, iteration over a set), `render_text_report`,
  `render_json_report`, `_check_icon`, the command line, `list_tables`,
  `get_columns`, `sample_values` and `_check_catalog_deployed`. These are
  I/O, rendering or unordered iteration. The draft entry is taken as input.
- The formatting inside `lookup_collateral` (display code and indentation)
  is not part of this model: its implementation is not in the repository's
  core files.
