# Patient review theme categorization, modelled in Dafny

The system takes patient reviews and assigns themes to them. It reads reviews from a CSV file, wraps each one in a fixed instruction prompt that lists the theme vocabulary, and asks an LLM chat endpoint for a JSON answer. It parses that answer into theme entries, with retries and back-off when a request fails, and keeps run counters. An evaluator compares the predicted theme sets with the ground-truth sets from the file and aggregates three scores: identified, novel and average.

The model has one module per source file, plus three support modules:

- `Wrappers` holds `Option` and `Result`.
- `Json` is the decoded Python value.
- `Text` covers Python's `strip`, `lower`, `join`, `find`, `rfind` and slicing.
- `Settings` is the configuration record, with its mode selection and range checks.
- `PromptEngineer` is the prompt builder. It is a class holding the shared theme list object. The prompt text is a template with two slots: the vocabulary and the review.
- `LlmClients` covers response parsing and the retry loop of `extract_themes`. Each is a method proved equal to a specification function, and lemmas state the retry policy.
- `Pipeline` is the orchestrator class, with its four counters and the batch loop.
- `Evaluator` covers ground-truth parsing and prediction parsing, the per-review metrics and the aggregation loop.
- `DataLoader` is the loader class: a frame read once and cached, plus the two review lists drawn from it.

Effects are parameters:

- The chat endpoint is a function from prompt and attempt number to outcome.
- `json.loads`, `ast.literal_eval`, `pandas.read_csv` and the file-exists test are functions of their input.
- The pipeline's client is a function from prompt to outcome.
- Sleeps are recorded in logs: a `waits` out-parameter for the retry loop, and a ghost `sleeps` field for the pipeline.

## Model

| member | source | states |
|---|---|---|
| Text.StripStartIsSuffix | theme_categorization/src/theme_categorization/llm_clients.py:257 | `lstrip` keeps a suffix. The suffix starts with a non-whitespace character, and everything dropped is whitespace in the `str.isspace` sense. |
| Text.StripEndIsPrefix | theme_categorization/src/theme_categorization/llm_clients.py:257 | `rstrip` keeps a prefix. The prefix ends with a non-whitespace character, and everything dropped is whitespace. |
| Text.StripIdempotent | theme_categorization/src/theme_categorization/evaluator.py:50 | Stripping an already stripped text changes nothing. |
| Text.StripEmptyIffBlank | theme_categorization/src/theme_categorization/data_loader.py:87 | A text strips to "" exactly when every character is whitespace. |
| Text.Lower | theme_categorization/src/theme_categorization/evaluator.py:51 | The model's lowering, which changes only ASCII capitals and the Kelvin sign, keeps the length of the text. |
| Text.JoinSnoc | theme_categorization/src/theme_categorization/prompt_engineer.py:34 | `', '.join`: one more item adds the separator and that item. There is no separator after the last item, and a single item gives just that item. |
| Text.Find | theme_categorization/src/theme_categorization/llm_clients.py:260 | `find('{')` gives -1 exactly when the character is absent. Otherwise it gives an index holding the character, with no earlier occurrence. |
| Text.RFind | theme_categorization/src/theme_categorization/llm_clients.py:261 | `rfind('}')` gives -1 exactly when the character is absent. Otherwise it gives an index holding the character, with no later occurrence. |
| Text.Slice | theme_categorization/src/theme_categorization/llm_clients.py:267 | `s[i:j]` is the substring when `i <= j` and "" otherwise. |
| Settings.BaseUrl | theme_categorization/src/theme_categorization/settings.py:55-60 | The vLLM URL when the token is the placeholder `"dummy_token"`, the router URL otherwise. |
| Settings.ApiKey | theme_categorization/src/theme_categorization/settings.py:62-67 | The key is `"EMPTY"` in vLLM mode and the token otherwise. It is never the placeholder itself. |
| Settings.ModesAgree | theme_categorization/src/theme_categorization/settings.py:55-67 | The URL and the key always belong to the same mode. |
| Settings.New | theme_categorization/src/theme_categorization/settings.py:69-76 | Construction succeeds, unchanged, exactly when 0 <= temperature <= 2, max_tokens >= 1 and the timeout is >= 1. Otherwise it fails with the first failing check's error. Each error comes with its exact condition. |
| Settings.ValidationIgnoresOtherFields | theme_categorization/src/theme_categorization/settings.py:69-76 | Token, model, URLs, delay and log level never affect validation. |
| PromptEngineer.ThemeList.constructor | theme_categorization/src/theme_categorization/prompt_engineer.py:11 | A list object holding the given items. |
| PromptEngineer.ThemeCategorizationPrompt.constructor | theme_categorization/src/theme_categorization/prompt_engineer.py:11-19 | `themes or KEY_THEMES`: no list or an empty list falls back to the default list object. Any other list object is stored as given, not copied. The template is the source's text. |
| PromptEngineer.ThemeCategorizationPrompt.CreatePrompt | theme_categorization/src/theme_categorization/prompt_engineer.py:34-60 | The prompt has three parts, in order. It begins with the instruction preamble and the vocabulary joined by ", ". It then carries the review verbatim in its own slot. It ends with the response-format tail. |
| PromptEngineer.CancelAround | theme_categorization/src/theme_categorization/prompt_engineer.py:36-58 | Equal texts with the same prefix and suffix around one slot have equal slots. |
| PromptEngineer.SameThemesDifferOnlyInReview | theme_categorization/src/theme_categorization/prompt_engineer.py:34-60 | For one vocabulary, two prompts are equal exactly when the reviews are. |
| PromptEngineer.SameReviewDiffersOnlyInThemes | theme_categorization/src/theme_categorization/prompt_engineer.py:34-60 | For one review, two prompts are equal exactly when the vocabularies join to the same line. |
| PromptEngineer.ThemesLine | theme_categorization/src/theme_categorization/prompt_engineer.py:34-41 | In the source's prompt the vocabulary follows "from this list: " and lists the themes in order, separated by ", ", with none after the last. It is followed by "." and a blank line. |
| PromptEngineer.ThemeCategorizationPrompt.GetThemes | theme_categorization/src/theme_categorization/prompt_engineer.py:62-69 | Returns a fresh list object with the same items. |
| PromptEngineer.MutatingCopyKeepsVocabulary | theme_categorization/src/theme_categorization/prompt_engineer.py:62-69 | Changing the list that `get_themes` returned does not change later prompts. |
| LlmClients.JsonCandidate | theme_categorization/src/theme_categorization/llm_clients.py:257-267 | There is no candidate exactly when the stripped content lacks `{` or `}`. |
| LlmClients.CandidateIsFirstToLastBrace | theme_categorization/src/theme_categorization/llm_clients.py:257-267 | The candidate runs from the first `{` to the last `}`, both included. It is "" when the last `}` comes before the first `{`. |
| LlmClients.ValidatedConcat | theme_categorization/src/theme_categorization/llm_clients.py:278-288 | Entry validation keeps the order of the items. |
| LlmClients.ValidatedOne | theme_categorization/src/theme_categorization/llm_clients.py:280-286 | An item is kept exactly when it is a dict with a `"theme"` key. It is kept with its theme value unchanged and its description, or "" when absent. |
| LlmClients.Loads | theme_categorization/src/theme_categorization/llm_clients.py:270 | `json.loads("")` always raises `JSONDecodeError`, whatever the decoder does with other texts. |
| LlmClients.ParseResponse | theme_categorization/src/theme_categorization/llm_clients.py:246-293 | The parser loop produces what `Parsing` specifies. |
| LlmClients.ShapeFailuresGiveEmpty | theme_categorization/src/theme_categorization/llm_clients.py:263-275 | A missing brace pair, a decode error or a missing `"themes"` key each give `{"themes": []}`. |
| LlmClients.ReversedBracesGiveEmpty | theme_categorization/src/theme_categorization/llm_clients.py:260-270 | When the last `}` comes before the first `{`, the candidate is "" and the result is `{"themes": []}`, whatever the decoder. |
| LlmClients.ParseRaisesIffThemesNotIterable | theme_categorization/src/theme_categorization/llm_clients.py:273-290 | The parser raises, and so escapes to the retry loop, exactly when the decoded `"themes"` value is None, a bool or a number. |
| LlmClients.ParsedListKeepsEntries | theme_categorization/src/theme_categorization/llm_clients.py:278-288 | A decoded list gives exactly its validated entries. |
| LlmClients.Backoff | theme_categorization/src/theme_categorization/llm_clients.py:159-162 | The back-off sequence is 2, 4, ..., 2n seconds. |
| LlmClients.BackoffSnoc | theme_categorization/src/theme_categorization/llm_clients.py:160 | One more failure appends the wait (n+1)*2. |
| LlmClients.FailedStep | theme_categorization/src/theme_categorization/llm_clients.py:159-162 | A failed, non-final attempt moves the loop on by exactly one wait. |
| LlmClients.ShiftWait | theme_categorization/src/theme_categorization/llm_clients.py:160-162 | The wait after attempt k is the (k+1)-th back-off wait. |
| LlmClients.ExtractThemes | theme_categorization/src/theme_categorization/llm_clients.py:95-244 | The retry loop's result, request count and wait log equal the specification `Attempts` from attempt 0. |
| LlmClients.AttemptsShape | theme_categorization/src/theme_categorization/llm_clients.py:107-244 | From attempt k on there are at most `retries - k` requests, and at least one if an attempt is left. There is one wait after each request but the last, and the i-th wait is (k+i+1)*2. |
| LlmClients.AtMostRetriesRequests | theme_categorization/src/theme_categorization/llm_clients.py:107-244 | There are at most `retries` requests, and none (an empty result) when `retries <= 0`. The waits are the back-off sequence, one fewer than the requests. |
| LlmClients.FirstCompletedAttemptWins | theme_categorization/src/theme_categorization/llm_clients.py:134-136 | The first attempt whose request and parse complete ends the loop with its result, even an empty one. That happens after n requests and n waits. |
| LlmClients.AllAttemptsFail | theme_categorization/src/theme_categorization/llm_clients.py:163-166 | With every attempt failing, the result is `{"themes": []}` after `retries` requests and `retries - 1` waits. |
| LlmClients.FailureKindIrrelevant | theme_categorization/src/theme_categorization/llm_clients.py:138-242 | Timeouts, rate limits, API errors and other exceptions give the same run. |
| LlmClients.RetriedTwiceThenCompleted | theme_categorization/src/theme_categorization/llm_clients.py:95-244 | Two failures and then a completed attempt return the third response after waits of 2 and 4 seconds. |
| LlmClients.ReversedBracesAreNotRetried | theme_categorization/src/theme_categorization/llm_clients.py:267-293 | A first response with reversed braces is not retried: one request, no wait, an empty result. |
| LlmClients.UndecodableIsNotRetried | theme_categorization/src/theme_categorization/llm_clients.py:290-293 | A response that does not decode is not retried: one request, no wait, an empty result. |
| Pipeline.Outcomes | theme_categorization/src/theme_categorization/pipeline.py:104-105 | There is one client outcome per review. |
| Pipeline.Results | theme_categorization/src/theme_categorization/pipeline.py:104-106 | There is one result per outcome, in order: the client's result, or `{"themes": []}` after an exception. |
| Pipeline.OutcomesSnoc | theme_categorization/src/theme_categorization/pipeline.py:104-105 | Review i is prompted with the shared template and vocabulary. |
| Pipeline.BatchSnoc | theme_categorization/src/theme_categorization/pipeline.py:104-106 | One more review appends its result and applies its bookkeeping. |
| Pipeline.Tally | theme_categorization/src/theme_categorization/pipeline.py:61-80 | Every call counts the review. It adds one success and no failure exactly when the client returned a non-empty theme list, which also adds its length. Otherwise it adds one failure and no success. An exception returns `{"themes": []}`. |
| Pipeline.TallyAllCounts | theme_categorization/src/theme_categorization/pipeline.py:61-80 | A run of n reviews adds n reviews, one success per outcome with themes and one failure per other outcome. It keeps total = successes + failures. |
| Pipeline.OneThemeNoThemeRaises | theme_categorization/src/theme_categorization/pipeline.py:61-80 | One theme, then no theme, then an exception give the counters (3, 1, 2, 1). |
| Pipeline.Pauses | theme_categorization/src/theme_categorization/pipeline.py:108-109 | With rate limiting on and a positive delay there is one pause of the delay after every review, the last included. Otherwise there are no pauses. |
| Pipeline.PausesSnoc | theme_categorization/src/theme_categorization/pipeline.py:108-109 | One more review adds at most one pause. |
| Pipeline.ThemeCategorizationPipeline.constructor | theme_categorization/src/theme_categorization/pipeline.py:20-45 | The counters start at zero. |
| Pipeline.ThemeCategorizationPipeline.ProcessReview | theme_categorization/src/theme_categorization/pipeline.py:47-80 | The new counters and the result are the bookkeeping of the client outcome for this review's prompt. |
| Pipeline.ThemeCategorizationPipeline.ProcessBatch | theme_categorization/src/theme_categorization/pipeline.py:82-114 | The results are one per review, in order. The counters are the bookkeeping of all the outcomes. The sleep log grows by the pauses. |
| Pipeline.ThemeCategorizationPipeline.GetMetrics | theme_categorization/src/theme_categorization/pipeline.py:116-139 | The counters are copied. The success rate is successes/total, in [0, 1], and 0 with no reviews. The average is themes/successes, and 0 with no successes. |
| Pipeline.ThemeCategorizationPipeline.ResetMetrics | theme_categorization/src/theme_categorization/pipeline.py:141-149 | All four counters are zero again. |
| Evaluator.LiteralThemes | theme_categorization/src/theme_categorization/evaluator.py:24-30 | A set as it is, and the elements of a list or tuple. Any other literal gives nothing. |
| Evaluator.MissingGroundTruthIsEmpty | theme_categorization/src/theme_categorization/evaluator.py:20-21 | A missing (NaN) or empty code gives the empty set, whatever the parser would say. |
| Evaluator.ParsedGroundTruth | theme_categorization/src/theme_categorization/evaluator.py:23-33 | Any other code gives what its literal stands for and never raises. A parse error gives the empty set. |
| Evaluator.ElementsAtMostLength | theme_categorization/src/theme_categorization/evaluator.py:28 | `set(list)` has at most as many members as the list has items. |
| Evaluator.CollectionsAgree | theme_categorization/src/theme_categorization/evaluator.py:25-28 | A list, a tuple and a set of the same names give the same ground truth. |
| Evaluator.KeptIsThemeName | theme_categorization/src/theme_categorization/evaluator.py:49-52 | A kept name is stripped, not empty and not "unknown" in any case. |
| Evaluator.PicksOf | theme_categorization/src/theme_categorization/evaluator.py:48-52 | There is one decision per entry, in order. |
| Evaluator.GatherSnoc | theme_categorization/src/theme_categorization/evaluator.py:48-52 | The effect of one more decision on the gathered names. |
| Evaluator.GatherRaisesIff | theme_categorization/src/theme_categorization/evaluator.py:50 | Gathering raises exactly when some decision raises. |
| Evaluator.GatherKeepsExactly | theme_categorization/src/theme_categorization/evaluator.py:51-52 | A name is gathered exactly when some decision keeps it. |
| Evaluator.NamesOfExactly | theme_categorization/src/theme_categorization/evaluator.py:46-53 | The entries raise exactly when an entry's theme is not a string. Otherwise a name is in the result exactly when some entry keeps it, and every name is a theme name. |
| Evaluator.NamesSnoc | theme_categorization/src/theme_categorization/evaluator.py:48-52 | One more entry is decided after the entries before it. |
| Evaluator.RaiseIsFinal | theme_categorization/src/theme_categorization/evaluator.py:50 | Once an entry has raised, later entries change nothing. |
| Evaluator.SentinelDroppedAndNamesStripped | theme_categorization/src/theme_categorization/evaluator.py:46-53 | `{"themes": [{"theme": "Unknown"}, {"theme": " staffing "}]}` gives `{"staffing"}`. |
| Evaluator.SkippedThenKept | theme_categorization/src/theme_categorization/evaluator.py:48-52 | A skipped entry followed by a kept one gives just the kept name. |
| Evaluator.StripPadded | theme_categorization/src/theme_categorization/evaluator.py:50 | A word padded with one space each side strips back to the word. |
| Evaluator.UnknownIsSkipped | theme_categorization/src/theme_categorization/evaluator.py:51 | The theme "Unknown" is skipped. |
| Evaluator.StaffingIsKept | theme_categorization/src/theme_categorization/evaluator.py:50-52 | The theme " staffing " is kept as "staffing". |
| Evaluator.PaddedNameIsKept | theme_categorization/src/theme_categorization/evaluator.py:50-52 | A padded theme name is kept in stripped form. |
| Evaluator.ParseLlmThemes | theme_categorization/src/theme_categorization/evaluator.py:36-53 | The dispatch matches `LlmThemes`. A non-dict or a result without `"themes"` gives the empty set, and so does a dict or string themes value. A themes value that is not iterable raises. |
| Evaluator.KeptNames | theme_categorization/src/theme_categorization/evaluator.py:46-53 | The loop over a list of entries gives what `NamesOf` specifies. |
| Evaluator.SplitCardinality | theme_categorization/src/theme_categorization/evaluator.py:70-81 | A set splits into its intersection with another set and the rest. |
| Evaluator.CalculateMetrics | theme_categorization/src/theme_categorization/evaluator.py:56-82 | Identified is G∩P, novel is P−G and missed is G−P. Identified plus missed is exactly G, disjointly. Identified plus novel is exactly P, disjointly. The counts are the sizes, so identified + missed = total ground truth and identified + novel = total predicted. |
| Evaluator.SumSnoc | theme_categorization/src/theme_categorization/evaluator.py:110-115 | The totals over one more review add that review's metrics. |
| Evaluator.TotalsBalance | theme_categorization/src/theme_categorization/evaluator.py:110-115 | Over a batch, identified + novel = predicted and identified <= ground truth. |
| Evaluator.Percentage | theme_categorization/src/theme_categorization/evaluator.py:117-127 | count/total*100, and 0 for a zero total. It lies within [0, 100] when count <= total. |
| Evaluator.Average | theme_categorization/src/theme_categorization/evaluator.py:129-133 | total/n, and 0 for n = 0. |
| Evaluator.Summary | theme_categorization/src/theme_categorization/evaluator.py:117-144 | The dict copies the totals. Each rate is a percentage of its own denominator, or 0 when that denominator is 0. The average is over the reviews. |
| Evaluator.RatesArePercentages | theme_categorization/src/theme_categorization/evaluator.py:117-127 | Over any batch both rates lie in [0, 100], and identified + novel = predicted. |
| Evaluator.EvaluatePredictions | theme_categorization/src/theme_categorization/evaluator.py:85-144 | Lists of different length raise `ValueError` exactly when the lengths differ. Otherwise the loop gives the summary of the per-review sums. |
| Evaluator.SumTotals | theme_categorization/src/theme_categorization/evaluator.py:105-115 | The summing loop gives the totals `SumMetrics` specifies: the sum, over the pairs, of each pair's four counts. |
| DataLoader.Validate | theme_categorization/src/theme_categorization/data_loader.py:42-46 | A freshly read frame is accepted exactly when it is non-empty and has a Comment column, with the error checked first. |
| DataLoader.CachedFrameIsReturned | theme_categorization/src/theme_categorization/data_loader.py:35-36 | A cached frame comes back without touching the file system, the reader or the checks. |
| DataLoader.FailedReadLeavesCacheUnset | theme_categorization/src/theme_categorization/data_loader.py:38-41 | A missing file or a reader failure raises and leaves the cache unset. |
| DataLoader.SecondLoadReturnsReadFrame | theme_categorization/src/theme_categorization/data_loader.py:41-46 | A frame is cached before it is validated, so the second call returns it even if the first call raised. |
| DataLoader.Comments | theme_categorization/src/theme_categorization/data_loader.py:62 | `dropna()` keeps at most as many comments as there are rows. |
| DataLoader.CommentsConcat | theme_categorization/src/theme_categorization/data_loader.py:62 | Comments keep row order. |
| DataLoader.CommentsExactly | theme_categorization/src/theme_categorization/data_loader.py:62 | A text is a review exactly when some row has it as a non-missing comment, blank ones included. |
| DataLoader.Take | theme_categorization/src/theme_categorization/data_loader.py:63 | `xs[:limit] if limit else xs`. The result is always a prefix. None or 0 keeps everything, a positive limit keeps min(limit, n) and a negative limit drops that many from the back. |
| DataLoader.CommentlessFrameRaisesTwice | theme_categorization/src/theme_categorization/data_loader.py:45-46 | A Comment-less frame raises `ValueError` when it is first read. Every later call finds it cached and raises `KeyError`. |
| DataLoader.Pairs | theme_categorization/src/theme_categorization/data_loader.py:87-104 | There are at most as many pairs as rows. |
| DataLoader.PairsConcat | theme_categorization/src/theme_categorization/data_loader.py:99-102 | Pairs keep row order. |
| DataLoader.PairsComplete | theme_categorization/src/theme_categorization/data_loader.py:87-102 | Conversely, every row that passes the filters gives its (comment, code) pair. With empty ground truth included, no code filter applies. |
| DataLoader.PairsAreKeptRows | theme_categorization/src/theme_categorization/data_loader.py:87-102 | Each pair is the comment and code text of a row that passed the filters. |
| DataLoader.PairsAreWellFormed | theme_categorization/src/theme_categorization/data_loader.py:87-95 | Each pair's comment is not blank. Unless empty ground truth is included, its code is present, not blank and not "nan" in any case. |
| DataLoader.WithCode | theme_categorization/src/theme_categorization/data_loader.py:91-95 | Every row that survives the code filters has a usable code. |
| DataLoader.ExcludingIsFilteringCodesFirst | theme_categorization/src/theme_categorization/data_loader.py:87-95 | Excluding empty ground truth is the same as dropping code-less rows first. |
| DataLoader.MissingCodeReadsAsNan | theme_categorization/src/theme_categorization/data_loader.py:89-101 | A commented row without a code is paired with "nan" when empty ground truth is included, and dropped otherwise. |
| DataLoader.MissingCodeColumnRaises | theme_categorization/src/theme_categorization/data_loader.py:83-84 | A frame without ProcessedCode raises `ValueError`. |
| DataLoader.Loader.constructor | theme_categorization/src/theme_categorization/data_loader.py:14-22 | The path is stored and the cache is empty. |
| DataLoader.Loader.LoadData | theme_categorization/src/theme_categorization/data_loader.py:24-49 | The result and the new cache are what `Loaded` gives for the old cache, the file test and the reader. |
| DataLoader.Loader.GetReviews | theme_categorization/src/theme_categorization/data_loader.py:51-63 | A load followed by the comment list, truncated by the limit. Loader errors pass through. |
| DataLoader.Loader.GetReviewsWithGroundTruth | theme_categorization/src/theme_categorization/data_loader.py:65-104 | A load, the ProcessedCode check, then the filtered pairs truncated by the limit. |

## Left out

- The HTTP client, `json.loads`, `ast.literal_eval`, `pandas.read_csv` and `Path.exists` are oracles. This is a modelling choice; their internals are not part of this model.
- `time.sleep` and `tqdm`: sleeps appear only as logged durations. The progress bar has no observable effect.
- Logging, including the troubleshooting messages and the connection-error classification in `extract_themes`. These only choose log text.
- Environment variables and `.env` loading in settings.py. A `Settings` record is built from explicit field values, and the pipeline is given its settings.
- Floating point: temperatures, delays and rates are reals. A NaN temperature, which passes both comparisons in the source, is not modelled.
- Pipeline.Tally: client results whose `"themes"` value is not a list are not modelled (the client never builds one). For a non-empty string, dict or tuple, the source would count a success and add that value's length. For a truthy value without a length, such as `True` or a number, it would count a success before `len` raised, and then a failure too.
- Evaluator.LiteralThemes: literals whose elements are not strings are not modelled, nor exceptions other than `ValueError`/`SyntaxError` from `literal_eval`.
- Text.Lower: lower-cases ASCII capitals and the Kelvin sign only. That is every character whose Python lower-case form is an ASCII letter, which is all the comparisons with "unknown" and "nan" depend on.
- DataLoader: pandas dtypes are not modelled. Cells are given as the text `astype(str)` produces, or `None` for a missing value. Columns other than Comment and ProcessedCode are not modelled.
- `KEY_THEMES` (constants.py) is not part of this model. The default list object is passed to the prompt builder's constructor.
- `PromptEngineer.ThemeCategorizationPrompt.template`: the prompt builder carries its template as a constant field. Its constructor sets the field to the source's text, and the pipeline reads it from there.
- main.py, `__init__.py`, `LLMClient`'s constructor (the OpenAI client set-up) and setup.py are not part of this model.
