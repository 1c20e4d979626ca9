# AI Hub content pipeline — a Dafny model of its sequential core

The AI Hub content repository generates educational articles with Google's
Gemini models and keeps its content inventory, prompts, generated outputs and
references in Supabase (and, for the cloud workflow, in Firestore). Around
those service calls sit scoring rules, dependency ordering, text parsers and
small state machines. This project models that logic in Dafny and proves what
each part promises.

One Dafny module per source file, plus shared modules:

- **Scoring**: `SourceEvaluation` (CRAAP scores of sources), `ContentEvaluation`
  (five criteria clamped to 1..5, total, average, rating), `QualityControl`
  (thresholds and the bounded regenerate-and-keep-best loop),
  `ReferenceManagement` (reference quality, listings, search ranking,
  statistics, idempotent linking).
- **Dependency ordering**: `GenerateContentBatch` (the depth-first
  topological sort as a class over its `visited`/`temp_visited`/`order`
  state, and the batch counters), `GenerateContentBatchImproved`,
  `ContentWorkflowSupabase` and `WorkflowSupabase` (dependency strings and
  dependency checks).
- **Text parsers and extractors**: `JsonFixer` (the brace/bracket/string/escape
  scanner of `manual_json_parse`), `GoogleAiClient` and `GoogleAiTest` (fence
  stripping, generation settings, flag parsing), `ResearchService`
  (first-`[`-to-last-`]` slicing and the per-index writes of the research
  handlers), `PromptManagement` and `PromptImporter` (`{{variable}}`
  extraction and rendering, import deduplication), the reference extractors
  and importers (`ImprovedReferenceExtractor`, `ReferenceImporter`,
  `ReferenceImporterImproved`, `ReferenceImport`, `AiReferenceProcessor`,
  `ProcessAllReferences`, `WorkflowWithReferences`,
  `WorkflowWithAiReferences`) and `TemplateSections`.
- **Workflow and progress state**: `CloudFunction` (initialized →
  template_selection → content_planning → section_population), `AppWebView`
  and `WebView` (progress steps), `SupabaseClient` (CSV row filter, the
  10000-character truncation and spill-over, version numbering).
- **Shared**: `Wrappers` (Option, Result), `StrUtil` (the Python string
  operations over `seq<char>`), `Lists` (stable sort, filters, dicts from
  pairs, first-occurrence counts), `PyMath` (Python's half-to-even `round`,
  clamping), `Json` (decoded JSON values), `Items` (database rows) and
  `CitationText` (the year, URL, header and separator patterns written out as
  scanners).

Conventions:

- Every database, Firestore, Pub/Sub, Gemini or Vertex AI call is an oracle:
  a function parameter or an input sequence of answers. Where the source
  keeps a table it updates in place, the table is a field of a class
  (`PromptStore`, `ReferenceStore`, `ContentStore`, `ResearchStore`), and the
  methods that change it are proved against functions of the old state.
- `json.loads`/`JSON.parse`, `json.dumps`, the regex repairs of `fix_json`,
  the clock, `uuid4`, file reads and writes are parameters, and so are the
  heading texts that `quality/content_evaluation.py` reads from its
  Markdown-to-HTML rendering. The lazy and nested regular expressions of
  `reference_management/improved_reference_extractor.py` are left to the
  caller as capture values; every other pattern the core matches (the
  counts of the content evaluation, `__post_init__`'s extraction in
  `source_evaluation.py`, the first importer's patterns, years, URLs,
  headers, separators) is a hand-written scanner that follows Python's
  leftmost, greedy-with-backtracking match.
- Half points are counted in doubled integers; Python's `round` is modelled
  exactly (ties to even); temperature arithmetic uses exact reals.
- Whitespace and case folding are ASCII only.

The source's own inconsistencies are modelled as written, not repaired:

- `batch/generate_content_batch.py` generates in the order
  `topological_sort` returns, which is the reversed post-order: each item
  comes before the items it depends on (see "## Findings"; the intended
  dependencies-first order is modelled beside it).
- The dependency separator is ',' in `batch/generate_content_batch.py` but
  ';' in `generate_content_batch_improved.py`.
- `quality/quality_control.py` reads the score `average_score`, while
  `quality/content_evaluation.py` writes `average`. The average threshold
  check therefore never applies, and `best_score` stays 0 in the
  regeneration loop.
- `reference_management/reference_importer.py` reads `ref.title` on
  dictionaries (line 103), so its import fails whenever references already
  exist.
- A missing template makes `cloud_function/main.py` write status `error`,
  not `template_not_found`.
- `extract_references_json` parses `parts[1]`, which is the text between the
  first and the second `REFERENCES_JSON` marker, not the whole tail.
- `{{x}}` extraction by `findall` reads `{{{a}}}` as the name `{a`.
- `google-ai-test.js` takes a flag's value as `split('=')[1]`, so a value
  loses everything from its second '=' on.
- The section filter of `search_content` (`app/web_view.py`) uses the loop
  variable that overwrote the request's `section`. This is also a finding,
  below.

Lines 40-142 and 440-474 of `workflows/content_workflow_supabase.py`
(`create_prompt`, `create_sources_prompt`, `clean_generated_content`,
`check_dependencies`) repeat lines 30-132 and 158-192 of
`content_workflow_supabase.py` character for character. The
`ContentWorkflowSupabase` rows below therefore state those properties for both
files, and `WorkflowSupabase` uses the same definitions.

## Model

| member | source | states |
|---|---|---|
| AiReferenceProcessor.FallbackTitle | reference_management/ai_reference_processor.py:110 | a text of at most 100 characters is its own title; a longer one keeps its first 100 characters and gains `...` |
| AiReferenceProcessor.FallbackFields | reference_management/ai_reference_processor.py:109-125 | the fallback record has the shortened title, is marked invalid with confidence 0.0, and uses the raw text as its APA citation |
| AiReferenceProcessor.FallbackInvalid | reference_management/ai_reference_processor.py:117 | a fallback record is never a valid reference |
| AiReferenceProcessor.ProcessReference | reference_management/ai_reference_processor.py:97-125 | the model's answer when it succeeds, the fallback record for the reference text when it fails |
| AiReferenceProcessor.ProcessReferencesBatch | reference_management/ai_reference_processor.py:127-181 | one processed record per input text, in order, each as `ProcessReference` gives it |
| AiReferenceProcessor.StoreErrorSticks | reference_management/ai_reference_processor.py:196-241 | once an entry raises, later entries do not change the outcome |
| AiReferenceProcessor.StoreProcessedReferences | reference_management/ai_reference_processor.py:183-243 | the loop returns exactly the outcome `StoreLoop` gives for all entries |
| AiReferenceProcessor.StoredPositions | reference_management/ai_reference_processor.py:196-236 | the positions whose ids are returned all lie before the current entry |
| AiReferenceProcessor.StoredIdsExplained | reference_management/ai_reference_processor.py:196-243 | each returned id belongs to a valid entry that was both created and linked under `REF<i+1>`, in increasing position order |
| AiReferenceProcessor.InvalidNotStored | reference_management/ai_reference_processor.py:197-200 | when every entry is invalid nothing is stored and the result is the empty list |
| AiReferenceProcessor.MarkedFields | reference_management/ai_reference_processor.py:318-325 | a generated reference is marked valid with confidence 0.9 and an object as verification |
| AiReferenceProcessor.MarkAll | reference_management/ai_reference_processor.py:318-325 | every generated reference is marked, one output per input, in order |
| AiReferenceProcessor.GenerateReferences | reference_management/ai_reference_processor.py:308-330 | a failed model call gives the empty list; an array of objects comes back at full length, each entry marked valid with confidence 0.9 and the verification object; an array with a non-object entry gives the empty list; any other answer gives the empty list unless it is an empty dict or text, which is returned as it is |
| AiReferenceProcessor.GeneratedAreValid | reference_management/ai_reference_processor.py:308-327 | every generated reference is a valid object with confidence 0.9 and readable verification |
| AiReferenceProcessor.CitationYear | reference_management/ai_reference_processor.py:354-359 | no date gives `n.d.`; a text date gives its ISO year or its first four characters; a list date gives the list of its first four items; any other date raises |
| AiReferenceProcessor.Citation | reference_management/ai_reference_processor.py:348-371 | a truthy APA citation is used as it is; a non-object entry raises |
| AiReferenceProcessor.DoiPreferred | reference_management/ai_reference_processor.py:365-371 | without an APA citation, a truthy DOI ends the built citation with its `https://doi.org/` link, whatever the URL |
| AiReferenceProcessor.NoDateCitation | reference_management/ai_reference_processor.py:350-365 | authors and title alone give `<authors> (n.d.). <title>.` |
| AiReferenceProcessor.CiteIsCite | reference_management/ai_reference_processor.py:347-373 | the citation function used by the loop is the one the specification names |
| AiReferenceProcessor.Markdown | reference_management/ai_reference_processor.py:332-375 | no references give the empty string; otherwise the output starts with the References heading |
| AiReferenceProcessor.EntriesInOrder | reference_management/ai_reference_processor.py:347-373 | entries are only appended: the text after n entries is a prefix of the text after m ≥ n |
| AiReferenceProcessor.EntriesErrorSticks | reference_management/ai_reference_processor.py:347-373 | once an entry raises, the later ones do not change the outcome |
| AiReferenceProcessor.EntriesStep | reference_management/ai_reference_processor.py:373 | each entry appends `[i+1] <citation>` and two newlines, or raises its citation's error |
| AiReferenceProcessor.FormatReferencesAsMarkdown | reference_management/ai_reference_processor.py:332-375 | the method returns exactly `Markdown` |
| AiReferenceProcessor.FormatEntries | reference_management/ai_reference_processor.py:345-375 | the loop returns the heading followed by all entries, or the first error |
| AiReferenceProcessor.AppendEntry | reference_management/ai_reference_processor.py:347-373 | one loop turn extends the text by that entry or stops with its error |
| AppWebView.ParseMetadata | app/web_view.py:37-47 | a falsy value gives `{}`, a dict is returned as it is, a string is decoded when it parses and gives `{}` when it does not |
| AppWebView.ParsedDictIsFixpoint | app/web_view.py:37-47 | parsing an already parsed dict again changes nothing |
| AppWebView.StatusColor | app/web_view.py:49-65 | the colour is one of the six classes; `danger` exactly for `Failed`, `success` exactly for the three finished states, `warning` exactly for the two working states; anything unknown is `secondary` |
| AppWebView.Extension | app/web_view.py:1089 | the text after the last dot: it contains no dot and the name is the rest, a dot and it |
| AppWebView.CheckUpload | app/web_view.py:1075-1091 | an upload is accepted exactly when the image part is present, the file name is non-empty, has a dot and a lower-cased extension among png, jpg, jpeg and gif; the two other refusals in the source's order |
| AppWebView.AllowedNameAccepted | app/web_view.py:1088-1089 | any stem followed by a dot and an allowed extension (in any case) is accepted |
| AppWebView.FieldValue | app/web_view.py:1017-1022 | `item.get(key, '') or ''`: a missing key or falsy value gives the empty string, a truthy value is kept |
| AppWebView.MatchFromMeans | app/web_view.py:1024-1029 | a row matches exactly when some field holds the query in its lower-cased text and every field before it is a string without the query; it does not match exactly when every field is a string without it |
| AppWebView.MatchFromHit | app/web_view.py:1024-1029 | a match is reported exactly when a first field holding the query exists, all earlier fields being strings without it |
| AppWebView.MatchFromMiss | app/web_view.py:1024-1029 | a non-match means every search field is a string whose lower-case form lacks the query |
| AppWebView.QueryMatchesMeans | app/web_view.py:1012-1031 | the query loop keeps exactly the matching rows, and raises exactly when some row has a non-string field where `.lower()` is called |
| AppWebView.QueryMatchesKeeps | app/web_view.py:1014-1031 | the filtered list holds exactly the rows that match |
| AppWebView.QueryMatchesRaises | app/web_view.py:1015-1029 | the loop raises exactly when some row's match raises |
| AppWebView.RaisingRowOfFront | app/web_view.py:1015-1029 | a last row that does not raise leaves the raising rows those of the front |
| AppWebView.RaisePersists | app/web_view.py:1015-1031 | once a prefix of the rows raises, the whole loop raises |
| AppWebView.KeepMeans | app/web_view.py:1035-1039 | the comprehension keeps exactly the rows whose field equals the value |
| AppWebView.NarrowMeans | app/web_view.py:1033-1039 | the status and section filters keep exactly the rows passing each filter that applies |
| AppWebView.SearchExact | app/web_view.py:1001-1056 | the search as written returns exactly the rows matching the query, the status and the section it filters on, and raises exactly when the query loop does |
| AppWebView.IntendedExact | app/web_view.py:1004-1039 | the corrected search filters on the requested section and returns exactly the rows matching query, status and that section |
| AppWebView.TitleHit | app/web_view.py:1018-1025 | a row whose title contains the query matches |
| AppWebView.AllHitsKept | app/web_view.py:1015-1031 | when every row matches, the loop keeps all of them in order |
| AppWebView.ExampleRowsHit | app/web_view.py:1015-1031 | two rows titled `q` both match the query `q` |
| AppWebView.SectionFilterOverwritten | app/web_view.py:1006-1039 | as written, searching `q` in section `S1` over rows in `S1` and `S2` returns the `S2` row, because the loop overwrote `section` |
| AppWebView.IntendedSectionKept | app/web_view.py:1006-1039 | the corrected search over the same rows returns the `S1` row |
| AppWebView.MatchRows | app/web_view.py:1012-1031 | the loop computes exactly the query matches and leaves `section` set to the last row's section |
| AppWebView.MatchRow | app/web_view.py:1016-1030 | one loop turn extends the matches of the prefix by one row |
| AppWebView.Search | app/web_view.py:1001-1056 | the method returns exactly `SearchResults` |
| AppWebView.StepsWith | app/web_view.py:486-492 | the five named steps with their descriptions and the given statuses |
| AppWebView.Statuses | app/web_view.py:486-492 | one status per step, in order |
| AppWebView.RegeneratedRecord | app/web_view.py:484-502 | the record `regenerate_content` stores: five steps, the first in progress, the others pending, current step 0, generation not started |
| AppWebView.StartedRecord | app/web_view.py:780-796 | the record `start_generation` stores: first step complete, second in progress, current step 1, generation started |
| AppWebView.Polled | app/web_view.py:690-696 | a poll marks generation started exactly when the record is at step 0, still in progress and not started; else it leaves the record |
| AppWebView.AllComplete | app/web_view.py:728-729 | every step becomes complete, nothing else changes |
| AppWebView.MarkError | app/web_view.py:733-736 | a valid current step is marked as an error with its message; an out-of-range one changes nothing |
| AppWebView.Generated | app/web_view.py:705-749 | the polled thread keeps step names and descriptions; with fewer than two steps it does nothing; a success completes every step and sets the current step to their number |
| AppWebView.StartedGenerated | app/web_view.py:801-841 | the started thread keeps names and descriptions; success completes every step; failure marks step 2 as an error |
| AppWebView.UpdatesKeepShape | app/web_view.py:685-841 | polling and both threads keep a record's five-step shape |
| AppWebView.StartsAtMostOnce | app/web_view.py:690-696 | after one poll, neither a second poll nor a poll after the thread ran starts the generation again |
| AppWebView.StartedRecordNeverPolled | app/web_view.py:789-795 | a record stored by `start_generation` is never started again by polling |
| AppWebView.RegeneratedStartsOnPoll | app/web_view.py:493-693 | a record stored by `regenerate_content` is started by the first poll |
| AppWebView.CompleteSteps | app/web_view.py:728-729 | the loop marks every step complete |
| AppWebView.ProgressStore.constructor | app/web_view.py:19 | the progress store starts empty |
| AppWebView.ProgressStore.Regenerate | app/web_view.py:479-502 | stores the regeneration record under the content id |
| AppWebView.ProgressStore.Poll | app/web_view.py:685-756 | unknown ids reply nothing; otherwise the record is polled, stored back and returned, and the thread starts exactly when the poll starts generation |
| AppWebView.ProgressStore.RunPolledGeneration | app/web_view.py:705-749 | the polled thread's update is applied to the record, if it exists |
| AppWebView.ProgressStore.StartGeneration | app/web_view.py:759-850 | a body that is not a dict or a temperature that cannot be converted crashes, an unknown item is refused, and otherwise the started record with the defaulted parameters is stored |
| AppWebView.ProgressStore.RunStartedGeneration | app/web_view.py:801-841 | the started thread's update is applied to the record, if it exists |
| CitationText.YearAt | reference_management/reference_importer.py:42 | a year matched at a position is four digits (or, with the letter suffix of reference_management/improved_reference_extractor.py:42, four digits and a letter) standing in parentheses at that position |
| CitationText.YearFrom | reference_management/reference_importer.py:42-43 | the leftmost match from a position is such a year occurring in the text; no match means no position from there on matches |
| CitationText.Year | reference_management/reference_importer.py:42-43 | a captured year starts with four digits and occurs in parentheses in the text |
| CitationText.YearFound | reference_management/reference_importer.py:42-43 | any parenthesised four-digit year in the text makes the search succeed |
| CitationText.UrlAt | reference_management/reference_importer.py:59 | a URL matched at a position occurs there and is longer than its `http://`, `https://` or `doi:` prefix |
| CitationText.UrlPos | reference_management/improved_reference_extractor.py:78 | the position found is -1 or one at or after the start where a URL matches |
| CitationText.SchemePrefix | reference_management/reference_importer.py:59 | a matched URL begins, ignoring case, with `http://`, `https://` or `doi:` |
| CitationText.Url | reference_management/reference_importer.py:59-60 | an extracted URL occurs in the text and begins, ignoring case, with one of those prefixes |
| CitationText.HeaderAt | reference_management/reference_importer.py:74-78 | a header match at a position is one of the listed section headers, found in the lower-cased text there |
| CitationText.SectionBody | reference_management/reference_importer.py:75 | the section body captured after a header is never empty, and blank text stays blank |
| CitationText.SectionFrom | reference_management/reference_importer.py:74-81 | no section is found only when no header occurs from that position on |
| CitationText.NoHeaderNoSection | reference_management/reference_importer.py:74-81 | text that contains none of the headers has no references section |
| CitationText.FirstHeader | reference_management/reference_importer.py:74-78 | a found section starts at a position where a header matches |
| CitationText.MarkerEnd | reference_management/reference_importer.py:87 | an item marker `[word]`, `N.` or (with bullets, reference_management/improved_reference_extractor.py:145) `*` ends after its start and within the text |
| CitationText.SeparatorEnd | reference_management/reference_importer.py:87 | a separator starting at a newline ends after it and within the text |
| CitationText.SplitItems | reference_management/reference_importer.py:87 | `re.split` always yields at least one piece |
| CitationText.OneLineOnePiece | reference_management/reference_importer.py:87 | text without a newline is not split |
| CitationText.SplitAtBracketMarker | reference_management/reference_importer.py:87 | a line break followed by `[word]` and a space separates two items |
| CitationText.BulletSeparatesOnlyWithBullets | reference_management/improved_reference_extractor.py:145 | a line break followed by `* ` separates items for the extractor that lists bullets and does not for the one that does not |
| CitationText.NonBlankStripped | reference_management/reference_importer.py:89 | the kept items are stripped and non-empty, and there are no more of them than pieces |
| CitationText.ReferenceItems | reference_management/reference_importer.py:71-91 | every reference item is non-empty and stripped |
| CitationText.NoHeaderNoItems | reference_management/reference_importer.py:80-81 | content without any section header yields no reference items |
| CloudFunction.ArrayUnion | cloud_function/main.py:151-249 | `ArrayUnion` adds the stage exactly once: the old stages stay in order, the stage is present, and a duplicate-free list stays duplicate-free |
| CloudFunction.Failure | cloud_function/main.py:89-94 | any exception gives a 500 whose message is the fixed prefix followed by the error text |
| CloudFunction.Validate | cloud_function/main.py:30-49 | no or falsy body gives 400 `No request data provided`; a body without truthy content type and title gives 400 `Missing required parameters`; errors never carry a content id |
| CloudFunction.ContentIdParts | cloud_function/main.py:52 | the content id is the lower-cased type, a dash and the first eight characters of the uuid text |
| CloudFunction.ContentIdsDiffer | cloud_function/main.py:52 | two uuids with different eight-character prefixes give different ids for the same type |
| CloudFunction.InitialDoc | cloud_function/main.py:55-70 | the stored document is initialized, at template selection, with no stages completed and no reviewers, and carries the request's title, type, audience and pillars |
| CloudFunction.Initialize | cloud_function/main.py:16-94 | validation errors change nothing; the document is written exactly when validation and the store succeed; the select-template event names the written document |
| CloudFunction.TargetId | cloud_function/main.py:111-190 | a handler acts exactly when the message is an object with a truthy string `content_id`, and then targets that id |
| CloudFunction.MessageTargets | cloud_function/main.py:76-115 | the message built for an event with a non-empty id is targeted at that id |
| CloudFunction.SelectionFailure | cloud_function/main.py:137-144 | no template sets status `error` and stage `template_selection_failed`, and keeps everything else |
| CloudFunction.WithTemplate | cloud_function/main.py:146-153 | a found template is stored, the status becomes `template_selected`, the stage `content_planning`, `template_selection` joins the completed stages and the update time is now |
| CloudFunction.SelectTemplate | cloud_function/main.py:96-165 | nothing is written exactly when the message has no target or the document is missing; a write updates that document by the template found for its type and audience |
| CloudFunction.Chars | cloud_function/main.py:214 | a string joined as an iterable is its characters |
| CloudFunction.Texts | cloud_function/main.py:214 | a list can be joined exactly when all its items are strings |
| CloudFunction.PillarsText | cloud_function/main.py:214 | no pillars gives `None specified`; a list joins exactly when all items are strings; a dict joins its distinct keys in first-binding order; anything else raises |
| CloudFunction.PlanOf | cloud_function/main.py:237-242 | a reply that parses is the plan; one that does not is kept under `raw_plan` |
| CloudFunction.WithPlan | cloud_function/main.py:244-251 | the plan is stored, the status becomes `plan_generated`, the stage `section_population`, `content_planning` joins the completed stages |
| CloudFunction.GenerateContentPlan | cloud_function/main.py:167-263 | no target or missing document changes nothing; a write stores the plan for that document and an event is only published after a write |
| CloudFunction.ContentStore.constructor | cloud_function/main.py:122-124 | the document collection and the event log start empty |
| CloudFunction.ContentStore.Apply | cloud_function/main.py:73-80 | a handler's effect writes its document and appends its event, keeping every document well formed |
| CloudFunction.ContentStore.InitializeContentCreation | cloud_function/main.py:16-94 | the reply and the new state are exactly those `Initialize` describes |
| CloudFunction.ContentStore.SelectTemplateHandler | cloud_function/main.py:96-165 | the new state is exactly what `SelectTemplate` describes |
| CloudFunction.ContentStore.GenerateContentPlanHandler | cloud_function/main.py:167-263 | the new state is exactly what `GenerateContentPlan` describes |
| CloudFunction.WrittenWellFormed | cloud_function/main.py:73-245 | writing a well-formed document keeps every document well formed |
| CloudFunction.SelectStep | cloud_function/main.py:131-160 | with a truthy template the handler publishes the plan event and writes the templated document |
| CloudFunction.PlanStep | cloud_function/main.py:201-258 | with printable pillars and an answering model the handler publishes the populate-sections event and writes the planned document |
| CloudFunction.InitializeStep | cloud_function/main.py:52-87 | a valid body succeeds with the new id, writes the initial document and publishes the select-template event for it |
| CloudFunction.InitializeThenSelect | cloud_function/main.py:16-165 | initializing and then handling the published event stores the templated document and publishes the plan event |
| CloudFunction.StagesInOrder | cloud_function/main.py:151-249 | the two stages are completed in the order template selection, content planning |
| CloudFunction.WorkflowRuns | cloud_function/main.py:16-263 | run end to end without failures, the document ends at `section_population` with both stages completed in order, and the three events went out naming it |
| CloudFunction.PlanAfterSelect | cloud_function/main.py:167-263 | planning a document just past template selection leaves both stages completed in order |
| ContentEvaluation.Final | quality/content_evaluation.py:147 | `max(1, min(5, round(score)))` on a score counted in halves always lies in 1..5 |
| ContentEvaluation.FinalMonotone | quality/content_evaluation.py:147 | a higher raw score never gives a lower final score |
| ContentEvaluation.FinalWhole | quality/content_evaluation.py:147 | a whole score already in 1..5 is kept |
| ContentEvaluation.FinalTies | quality/content_evaluation.py:147 | a score half-way between two integers rounds to the even one (Python's `round`), then is clamped |
| ContentEvaluation.Band | quality/content_evaluation.py:115-135 | an average of at least 4.0 moves the score up, one of at most 2.0 moves it down, anything between does not move it |
| ContentEvaluation.IntegrationBand | quality/content_evaluation.py:139-143 | three or more distinct citations add half a point, one or none remove half a point with the "Poor source integration" note, two change nothing |
| ContentEvaluation.SourceQuality | quality/content_evaluation.py:92-149 | the score lies in 1..5, and no sources give (1, "No sources found") |
| ContentEvaluation.SourceQualityMonotone | quality/content_evaluation.py:138-147 | more distinct citations never lower the source-quality score |
| ContentEvaluation.EvaluatedSumBounds | quality/content_evaluation.py:101-104 | each evaluated source has a total between 11 and 19, so the sum of averages lies between 11/5 and 19/5 per source |
| ContentEvaluation.QualityBandNeutral | quality/content_evaluation.py:104-119 | since evaluated sources average strictly between 2.0 and 4.0, the average-quality step never moves the score |
| ContentEvaluation.WordCount | quality/content_evaluation.py:219 | the number of words is at most the length of the text |
| ContentEvaluation.WordCountJoin | quality/content_evaluation.py:219 | the words of two texts joined by a space are the words of the first plus those of the second |
| ContentEvaluation.NoWordCharNoWords | quality/content_evaluation.py:219 | a text without letters, digits or '_' has no words |
| ContentEvaluation.WordRunEnd | quality/content_evaluation.py:107 | the greedy `\w+` run ends at the first non-word character or at the end |
| ContentEvaluation.MarkerEnd | quality/content_evaluation.py:107 | a citation marker starts with '[', ends with ']', has at least two word characters between them, and only word characters |
| ContentEvaluation.Markers | quality/content_evaluation.py:107 | every marker `findall` returns is a bracketed run of word characters |
| ContentEvaluation.NoBracketNoMarkers | quality/content_evaluation.py:107 | a text with no '[' from a position on has no marker there |
| ContentEvaluation.NoBracketNoCitations | quality/content_evaluation.py:107-108 | a text without '[' has no unique citation |
| ContentEvaluation.LastNewline | quality/content_evaluation.py:221 | the backtracked `\s*\n` ends at the last newline in the blank run, with no newline after it |
| ContentEvaluation.ParagraphBreaks | quality/content_evaluation.py:221 | there are at most as many paragraph breaks as characters |
| ContentEvaluation.ListItems | quality/content_evaluation.py:226 | there are at most as many list items as characters |
| ContentEvaluation.NoNewlineNoBreaks | quality/content_evaluation.py:221-226 | a text without a newline has neither paragraph breaks nor list items |
| ContentEvaluation.OneBreakOneItem | quality/content_evaluation.py:221-226 | a blank line is one paragraph break, and "- " after a newline one list item |
| ContentEvaluation.AltEnd | quality/content_evaluation.py:169 | a keyword alternative that matches ends inside the text at a word boundary |
| ContentEvaluation.FirstEnd | quality/content_evaluation.py:224 | an alternation matches at a position exactly when one of its alternatives does |
| ContentEvaluation.Hits | quality/content_evaluation.py:169 | `findall` finds at most one match more than there are characters left |
| ContentEvaluation.HitsFrom | quality/content_evaluation.py:224 | a match at or after the starting position is counted |
| ContentEvaluation.HitsWitness | quality/content_evaluation.py:224 | a positive count comes from a position where the pattern matches |
| ContentEvaluation.HitsPositive | quality/content_evaluation.py:224 | the count is positive exactly when the pattern matches somewhere |
| ContentEvaluation.KeywordHits | quality/content_evaluation.py:167-170 | no keywords give no mentions |
| ContentEvaluation.KeywordHitsAppend | quality/content_evaluation.py:167-170 | the mentions of a split keyword list add up |
| ContentEvaluation.PillarSections | quality/content_evaluation.py:194-201 | at most one pillar section is counted per heading |
| ContentEvaluation.PillarSectionsAppend | quality/content_evaluation.py:194-201 | headings are counted independently of each other |
| ContentEvaluation.MetricsOf | quality/content_evaluation.py:157-364 | the pillar sections are at most the headings, the three pillars' mentions add up to the hits of all their keywords in the lower-cased text, and examples are mentioned exactly when one of the example phrases occurs as whole words |
| ContentEvaluation.MentionedPillars | quality/content_evaluation.py:186 | at most three pillars are mentioned, and none exactly when there are no mentions |
| ContentEvaluation.MissionAlignment | quality/content_evaluation.py:151-210 | the score lies in 1..5; no mentions give at most 2, and 1 without pillar sections; all three pillars with ten or more mentions give 5 |
| ContentEvaluation.MissionNoMentionsNotedTwice | quality/content_evaluation.py:178-191 | without mentions the "no pillars" note is recorded twice, once by each check |
| ContentEvaluation.EngagementElements | quality/content_evaluation.py:240-243 | at most five kinds of engagement element are counted |
| ContentEvaluation.Engagement | quality/content_evaluation.py:212-262 | the score lies in 1..5, and a short text with no engagement element scores at most 2 |
| ContentEvaluation.EngagementTieRoundsDown | quality/content_evaluation.py:235-260 | a short text with two or three elements and few paragraphs lands on 2.5 and rounds to 2 |
| ContentEvaluation.AccuracyMoves | quality/content_evaluation.py:290-301 | more than ten hedges lower the score by half a point and more than ten technical terms raise it by half a point |
| ContentEvaluation.Accuracy | quality/content_evaluation.py:264-309 | accuracy starts from the source-quality score and ends at most one point away from it |
| ContentEvaluation.AccuracyMeans | quality/content_evaluation.py:277-305 | balanced moves keep the source score; a single half-point move rounds to the even neighbour; the note ends with the caveat |
| ContentEvaluation.Audience | quality/content_evaluation.py:323-330 | "-BEG-" gives beginner, else "-INT-" intermediate, else "-ADV-" advanced, beginner by default |
| ContentEvaluation.AudienceRaise | quality/content_evaluation.py:332-376 | the audience checks raise the score by 0 to 3 half points, by at most 2 for intermediate |
| ContentEvaluation.Relevance | quality/content_evaluation.py:311-382 | the score lies in 3..5, at most 4 for intermediate, and the note ends with the audience note |
| ContentEvaluation.Criterion | quality/content_evaluation.py:384-405 | all five scores lie in their ranges, accuracy is within one of source quality, and the total lies in 7..25 |
| ContentEvaluation.NoSourcesAccuracy | quality/content_evaluation.py:98-99 | without sources, source quality is (1, "No sources found") and accuracy is at most 2 |
| ContentEvaluation.ScoreMap | quality/content_evaluation.py:398-405 | the scores carry every initial key, and the average times 5 is the total |
| ContentEvaluation.NoteMap | quality/content_evaluation.py:384-396 | the notes carry every initial key except "general" |
| ContentEvaluation.ContentRatingOnTotal | quality/content_evaluation.py:407-417 | on the total of the five scores: "Excellent" from 22.5, "Very Good" for 20..22, "Poor" below 10 |
| ContentEvaluation.BaseName | quality/content_evaluation.py:70-81 | the base name is the part of the path after its last '/' |
| ContentEvaluation.Stem | quality/content_evaluation.py:70-81 | the stem is a prefix of the base name, cut at a dot |
| ContentEvaluation.ContentIdFromPath | quality/content_evaluation.py:70-81 | the extracted content id contains no '/' |
| ContentEvaluation.ReportOf | quality/content_evaluation.py:384-428 | the report has every score key, is rated by its average, and counts the parsed sources and words |
| ContentEvaluation.MergeIntoInitial | quality/content_evaluation.py:50-68 | the evaluation's scores replace every initial score, and its notes every initial note except "general" |
| ContentEvaluation.ReportOfMerged | quality/content_evaluation.py:384-428 | the report holds the initial dictionaries updated with the criterion results |
| ContentEvaluation.ResolvedId | quality/content_evaluation.py:42 | a non-empty given content id is kept, otherwise it comes from the file name |
| ContentEvaluation.ContentEvaluation.constructor | quality/content_evaluation.py:34-68 | the evaluator keeps the path, text and counts, resolves the content id, and starts from the initial score and note dictionaries |
| ContentEvaluation.ContentEvaluation.Evaluate | quality/content_evaluation.py:384-428 | the evaluator's scores and notes are updated with the criteria, and the report carries them with the rating of the average |
| ContentEvaluation.ContentEvaluation.Record | quality/content_evaluation.py:397-428 | the criteria are recorded in the evaluator's state and reported |
| ContentEvaluation.EvaluateFile | quality/content_evaluation.py:463-483 | evaluating a file returns the report of the evaluation specification |
| ContentWorkflowSupabase.StripAll | content_workflow_supabase.py:47 | each part stripped, one per part, in order |
| ContentWorkflowSupabase.Primaries | content_workflow_supabase.py:45 | at most the two primary pillars, and only the non-empty ones |
| ContentWorkflowSupabase.MissionPillars | content_workflow_supabase.py:44-48 | the primary pillars come first; when the secondary field is truthy, its comma-separated parts follow, stripped |
| ContentWorkflowSupabase.PillarsWithoutSecondaries | content_workflow_supabase.py:46 | a falsy secondary field adds no pillars |
| ContentWorkflowSupabase.SecondariesCounted | content_workflow_supabase.py:46-48 | a truthy secondary field adds at least one pillar |
| ContentWorkflowSupabase.PromptWith | content_workflow_supabase.py:50-83 | the prompt opens with the item's content type and title, contains its mission pillars joined by `, `, and ends with the closing guidance |
| ContentWorkflowSupabase.CreatePrompt | content_workflow_supabase.py:30-83 | the content prompt opens with the item's content type and title, contains its mission pillars, and ends with the guidance not to open with meta-commentary |
| ContentWorkflowSupabase.SourcesPromptWith | content_workflow_supabase.py:85-115 | the sources prompt embeds exactly the first 2000 characters of the content between its fixed head and tail |
| ContentWorkflowSupabase.CreateSourcesPrompt | content_workflow_supabase.py:85-115 | the sources prompt is the fixed head, then the content's first 2000 characters, then the fixed tail, and nothing else |
| ContentWorkflowSupabase.SourcesPromptSeesPrefix | content_workflow_supabase.py:88 | two contents agreeing on their first 2000 characters give the same sources prompt |
| ContentWorkflowSupabase.DropPreamble | content_workflow_supabase.py:130 | removing an anchored preamble leaves a suffix of the text, and a text not starting with the phrase is untouched |
| ContentWorkflowSupabase.CleanWith | content_workflow_supabase.py:129-130 | after any number of patterns, the result is a suffix of the original text |
| ContentWorkflowSupabase.CleanGeneratedContent | content_workflow_supabase.py:117-132 | the loop applies all six patterns in order and returns a suffix of the text |
| ContentWorkflowSupabase.NoPreambleUnchanged | content_workflow_supabase.py:117-132 | a text starting with none of the six phrases is returned unchanged |
| ContentWorkflowSupabase.SourceEntry | content_workflow_supabase.py:140 | a source gives its `[id] citation` line exactly when it is an object with both keys |
| ContentWorkflowSupabase.SourceEntriesOk | content_workflow_supabase.py:139-140 | all entries succeed exactly when every source has an id and a citation |
| ContentWorkflowSupabase.AddSourcesShape | content_workflow_supabase.py:134-156 | the result is the content, the Sources heading, the entries, and ends with the collection metadata for the date; no sources give just heading and metadata |
| ContentWorkflowSupabase.AddSourcesToContent | content_workflow_supabase.py:134-156 | the method returns exactly `AddSources` |
| ContentWorkflowSupabase.SourceEntryIsSourceEntry | content_workflow_supabase.py:140 | the entry function the loop uses is the one the specification names |
| ContentWorkflowSupabase.EntriesAgree | content_workflow_supabase.py:139-140 | the entries built with that function are `SourceEntries` |
| ContentWorkflowSupabase.AppendSources | content_workflow_supabase.py:137-140 | the loop returns the start followed by all entries, or the first error |
| ContentWorkflowSupabase.AppendSource | content_workflow_supabase.py:140 | one loop turn appends that source's entry or stops with its error |
| ContentWorkflowSupabase.ErrorSticks | content_workflow_supabase.py:139-140 | once a source raises, later sources change nothing |
| ContentWorkflowSupabase.SourceEntriesInOrder | content_workflow_supabase.py:139-140 | the entries of n+1 sources are those of n followed by the next source's entry |
| ContentWorkflowSupabase.Iterated | content_workflow_supabase.py:139 | iterating a decoded list yields its items |
| ContentWorkflowSupabase.DependencyIds | content_workflow_supabase.py:174 | splitting on commas always yields at least one id |
| ContentWorkflowSupabase.Unmet | content_workflow_supabase.py:179-187 | a dependency is reported exactly when it is missing or its status is not `Completed` |
| ContentWorkflowSupabase.Incomplete | content_workflow_supabase.py:177-187 | at most one report per dependency checked |
| ContentWorkflowSupabase.IncompleteEmpty | content_workflow_supabase.py:177-189 | nothing is reported exactly when every dependency is present and completed |
| ContentWorkflowSupabase.Dependencies | content_workflow_supabase.py:158-192 | an unknown item gives `(False, [])`; a met result never lists anything |
| ContentWorkflowSupabase.DependenciesMet | content_workflow_supabase.py:158-192 | dependencies are met exactly when the field is empty or `none`, or every listed id is present and completed |
| ContentWorkflowSupabase.CheckDependencies | content_workflow_supabase.py:158-192 | the loop returns exactly `Dependencies` |
| ContentWorkflowSupabase.GenerateContentForItem | content_workflow_supabase.py:194-384 | when a guard refuses nothing is updated; otherwise the status goes to `In Progress` and then to `Completed` exactly on success, or to `Failed` with nothing saved; a success saves a file |
| ContentWorkflowSupabase.CompletedNotRegenerated | content_workflow_supabase.py:210-215 | a completed item is not regenerated without force, and nothing is updated |
| ContentWorkflowSupabase.SavedHasSources | content_workflow_supabase.py:267-365 | the saved file starts with the cleaned text followed by the Sources heading |
| GenerateContentBatch.ParseDependencies | batch/generate_content_batch.py:30-35 | an absent, empty or "none" (any case) string gives no dependency; otherwise one stripped part per ','-separated piece |
| GenerateContentBatch.BuildGraph | batch/generate_content_batch.py:24-39 | the graph has exactly one key per content id, and the last item of an id decides its dependency list |
| GenerateContentBatch.AddKey | batch/generate_content_batch.py:37 | `graph[content_id] = dependencies` updates the dict and appends a new key at the end of its insertion order |
| GenerateContentBatch.PathDescends | batch/generate_content_batch.py:61-71 | in an order where every node follows its dependencies, a dependency path only goes back in the order |
| GenerateContentBatch.DepsFirstAcyclic | batch/generate_content_batch.py:61-78 | a graph with such an order has no cycle |
| GenerateContentBatch.ReversedDependentsFirst | batch/generate_content_batch.py:80-81 | reversing a dependencies-first order puts every node before its dependencies |
| GenerateContentBatch.StackCycle | batch/generate_content_batch.py:50-53 | re-entering a node that is still on the path of `temp_visited` closes a cycle |
| GenerateContentBatch.Sorter.constructor | batch/generate_content_batch.py:43-46 | the search starts with nothing visited, nothing in progress and an empty order |
| GenerateContentBatch.Sorter.Visit | batch/generate_content_batch.py:48-72 | a successful visit leaves the node visited and the path as it was, only adding to `visited` and `order`; a failed one means the graph has a cycle |
| GenerateContentBatch.Sorter.Start | batch/generate_content_batch.py:58 | the node joins `temp_visited` and the path; nothing else changes |
| GenerateContentBatch.Sorter.Finish | batch/generate_content_batch.py:69-71 | the node leaves `temp_visited` and is appended to `visited` and the order, after all of its in-graph dependencies |
| GenerateContentBatch.Sorter.VisitDependencies | batch/generate_content_batch.py:61-67 | afterwards every in-graph dependency is visited; dependencies missing from the graph are skipped; a failure means a cycle |
| GenerateContentBatch.DependencyOrder | batch/generate_content_batch.py:41-78 | the post-order: none exactly when the graph has a cycle, otherwise every key exactly once, each after its dependencies |
| GenerateContentBatch.TopologicalSort | batch/generate_content_batch.py:41-81 | none exactly when the graph has a cycle, otherwise every key exactly once, each before its dependencies (the post-order reversed) |
| GenerateContentBatch.ReversedPermutes | batch/generate_content_batch.py:81 | reversing keeps every key exactly once |
| GenerateContentBatch.TwoItemsDependentFirst | batch/generate_content_batch.py:80-81 | for "a" depending on "b", the returned order is ["a", "b"]: the dependent comes first |
| GenerateContentBatch.TwoItemsDependencyFirst | batch/generate_content_batch.py:69-72 | for "a" depending on "b", a dependencies-first order is ["b", "a"] |
| GenerateContentBatch.RequestedIds | batch/generate_content_batch.py:137 | one stripped id per ','-separated piece of the argument |
| GenerateContentBatch.Fetched | batch/generate_content_batch.py:138-144 | no more items than requested ids |
| GenerateContentBatch.FetchedExactly | batch/generate_content_batch.py:138-144 | the fetched items are exactly the items found for the requested ids |
| GenerateContentBatch.ContentMap | batch/generate_content_batch.py:165 | one entry per content id, mapping it to an item with that id, the last one for a repeated id |
| GenerateContentBatch.KeepKnown | batch/generate_content_batch.py:168 | exactly the sorted ids present in the content map are kept |
| GenerateContentBatch.KeepKnownAll | batch/generate_content_batch.py:168 | since every sorted id is a graph key, the filter keeps all of them |
| GenerateContentBatch.PermutationLength | batch/generate_content_batch.py:75-78 | an order holding every key once is as long as the graph |
| GenerateContentBatch.DepsFirstPrefix | batch/generate_content_batch.py:171-173 | truncating a dependencies-first order keeps it dependencies-first |
| GenerateContentBatch.CountSkipped | batch/generate_content_batch.py:186-190 | no more skips than ids, and none when forced; any row with a `content_id` counts, a NULL status never skips |
| GenerateContentBatch.CountSucceeded | batch/generate_content_batch.py:192-206 | successes and skips together never exceed the ids processed; any row with a `content_id` counts |
| GenerateContentBatch.ResetContentStatus | batch/generate_content_batch.py:83-106 | without a connection it fails and resets nothing; otherwise it resets the given ids, or every inventory item's id when none are given, reading no cell but `content_id` |
| GenerateContentBatch.ContentItems | batch/generate_content_batch.py:134-147 | the requested ids' items when an id argument is given, otherwise the inventory |
| GenerateContentBatch.FetchAll | batch/generate_content_batch.py:138-144 | the fetch loop collects the found items, in order |
| GenerateContentBatch.Schedule | batch/generate_content_batch.py:155-173 | none exactly on a cycle; otherwise distinct known ids in `topological_sort`'s order, where no item is preceded by one of its dependencies; the result is `full[:max_items]` of a complete dependents-first order `full` when `max_items` is set and exceeded, and `full` itself otherwise; rows need only their `content_id` |
| GenerateContentBatch.IntendedSchedule | batch/generate_content_batch.py:155-173 | the corrected schedule on the post-order: none exactly on a cycle; otherwise distinct known ids, each after its dependencies, `full[:max_items]` of a complete dependencies-first order `full` when truncated and `full` itself otherwise |
| GenerateContentBatch.SchedulePrefix | batch/generate_content_batch.py:168-173 | any prefix of a sorted order keeps distinct, known ids; a prefix of a dependents-first order never puts a dependency in front of its item; the whole order covers every item |
| GenerateContentBatch.DependentsFirstPrefix | batch/generate_content_batch.py:171-173 | truncating the as-written order never brings a dependency in front of its item |
| GenerateContentBatch.RunBatch | batch/generate_content_batch.py:177-211 | skips and successes are those counted by the specification, and successful + failed + skipped equals the number processed |
| GenerateContentBatch.GenerateForItems | batch/generate_content_batch.py:149-214 | no items or a cycle give False with nothing processed; otherwise the as-written schedule is processed (each item before its dependencies), the counts add up and the result is `failed == 0` |
| GenerateContentBatch.GenerateContentBatch | batch/generate_content_batch.py:108-214 | a failed connection or reset (of the unfiltered inventory) gives False; otherwise the items are the requested or queried ones, processed as above in `topological_sort`'s dependents-first order, cut to `max_items` |
| GenerateContentBatchImproved.ParseDependencies | generate_content_batch_improved.py:27-40 | every parsed dependency is non-empty and already stripped |
| GenerateContentBatchImproved.BlankDeclaresNothing | generate_content_batch_improved.py:36-37 | an absent or blank string declares no dependency |
| GenerateContentBatchImproved.EntriesLackSeparator | generate_content_batch_improved.py:40 | no parsed dependency contains ';' |
| GenerateContentBatchImproved.SingleDependency | generate_content_batch_improved.py:40 | a non-blank string without ';' is one dependency, itself stripped |
| GenerateContentBatchImproved.SplitJoin | generate_content_batch_improved.py:40 | splitting on ';' undoes joining parts that contain no ';' |
| GenerateContentBatchImproved.ParseJoin | generate_content_batch_improved.py:27-40 | parsing the ';'-join of non-empty, stripped, ';'-free ids gives those ids back |
| GenerateContentBatchImproved.JoinStartsWithFirst | generate_content_batch_improved.py:36 | such a join is not blank, so it passes the blank check |
| GenerateContentBatchImproved.FilterContentItems | generate_content_batch_improved.py:89-115 | no more items than given, and an item is kept exactly when it passes every truthy filter |
| GenerateContentBatchImproved.FilterContentItemsConcat | generate_content_batch_improved.py:104-115 | the filters distribute over concatenation, so order is kept |
| GenerateContentBatchImproved.FilterContentItemsSingle | generate_content_batch_improved.py:104-115 | a single item is kept exactly when it matches |
| GenerateContentBatchImproved.FilterIsOnePass | generate_content_batch_improved.py:104-115 | the three successive filters are one conjunctive, order-preserving pass |
| GenerateContentBatchImproved.SelectedStatuses | generate_content_batch_improved.py:154-159 | a truthy status alone, otherwise "Not Started" plus "Failed" exactly when retrying failed items; non-empty and without repeats |
| GenerateContentBatchImproved.Selected | generate_content_batch_improved.py:161-163 | the selected items come from the inventory |
| GenerateContentBatchImproved.SelectedMembers | generate_content_batch_improved.py:161-163 | an item is selected exactly when its status is one of the statuses and it passes the id and section filters |
| GenerateContentBatchImproved.CollectFiltered | generate_content_batch_improved.py:161-163 | the extend loop yields the per-status filters concatenated |
| GenerateContentBatchImproved.IdsOf | generate_content_batch_improved.py:173 | the ids of the items, one per item, in order |
| GenerateContentBatchImproved.Truncated | generate_content_batch_improved.py:179-181 | a prefix of the order: all of it without a limit, at most `max_items` for a positive limit, and `len + max_items` for a negative one (Python's negative slice) |
| GenerateContentBatchImproved.NodeIds | generate_content_batch_improved.py:53-56 | every item's id is a node |
| GenerateContentBatchImproved.NodeData | generate_content_batch_improved.py:53-56 | a node's data is an item with that id |
| GenerateContentBatchImproved.LaterRowWins | generate_content_batch_improved.py:54-56 | `add_node` with the same id again replaces the data: the last row wins |
| GenerateContentBatchImproved.PredsIn | generate_content_batch_improved.py:59-68 | the predecessors of a node are nodes |
| GenerateContentBatchImproved.EdgeIsPredecessor | generate_content_batch_improved.py:63-66 | a declared dependency that is a node becomes a predecessor |
| GenerateContentBatchImproved.PredecessorHasEdge | generate_content_batch_improved.py:63-66 | every predecessor comes from a declared dependency of a row with that id |
| GenerateContentBatchImproved.CheckDependencies | generate_content_batch_improved.py:193-199 | dependencies are met exactly when every predecessor is "Completed" |
| GenerateContentBatchImproved.UnfinishedDependencyBlocks | generate_content_batch_improved.py:195-199 | one unfinished in-graph dependency blocks the item |
| GenerateContentBatchImproved.CompletedDependenciesAdmit | generate_content_batch_improved.py:193-199 | when all in-graph dependencies are completed, the item is admitted |
| GenerateContentBatchImproved.Admitted | generate_content_batch_improved.py:189-204 | the ids handed to the generator: those of the order that are forced or whose dependencies are met |
| GenerateContentBatchImproved.ForceAdmitsAll | generate_content_batch_improved.py:194 | with force every id of the order is generated |
| GenerateContentBatchImproved.BlockedNotGenerated | generate_content_batch_improved.py:201-204 | unforced, an item with an unfinished dependency is never generated |
| GenerateContentBatchImproved.Successes | generate_content_batch_improved.py:210-215 | no more successes than attempts |
| GenerateContentBatchImproved.GenerateOne | generate_content_batch_improved.py:189-224 | one turn of the loop extends the attempted ids and the success count by the admitted id, and counts it once |
| GenerateContentBatchImproved.GenerateInOrder | generate_content_batch_improved.py:185-224 | the ids generated are the admitted ones, successes are their successful generations, and successes plus failures equal the length of the order |
| GenerateContentBatchImproved.GenerateContentBatch | generate_content_batch_improved.py:117-226 | no connection, no inventory or no selected item gives (0, 0) and no generation; otherwise the truncated order is processed as the loop specifies |
| GenerateContentBatchImproved.ResetTargets | generate_content_batch_improved.py:253-259 | the rows a reset touches are inventory rows |
| GenerateContentBatchImproved.ResetContentStatus | generate_content_batch_improved.py:228-275 | no connection, no inventory or no filter and no all flag resets nothing; otherwise every filtered row is reset and counted |
| GenerateContentBatchImproved.ResetAllTouchesEverything | generate_content_batch_improved.py:253-261 | with neither ids nor section the all flag resets every row |
| GoogleAiClient.NewClient | google_ai_client.py:29-46 | construction fails with the missing-key error exactly when neither the given key nor the environment's is truthy; otherwise the given key wins and the model name is kept |
| GoogleAiClient.GenerationConfig | google_ai_client.py:61-65 | the config holds the temperature exactly when one is given and the token limit exactly when one is given, and nothing else |
| GoogleAiClient.NodeCommand | google_ai_client.py:92-103 | the command is node, the script, the prompt, model and output flags in that order, then the temperature and token flags only when given |
| GoogleAiClient.GenerateWithNode | google_ai_client.py:76-123 | the Node path succeeds exactly when the process exits with 0, returning the output file's text; otherwise the error carries the process's stderr |
| GoogleAiClient.GenerateContent | google_ai_client.py:48-74 | with the Python library the prompt is sent with the config; without it the Node path is taken |
| GoogleAiClient.GenerateContentWithModel | google_ai_client.py:181-197 | the module-level call fails with the missing-key error when no key is set, and otherwise is the client's call for that model |
| GoogleAiClient.GenerateJsonWithModel | google_ai_client.py:199-215 | the module-level JSON call fails with the missing-key error when no key is set, and otherwise is the client's JSON call for that model |
| GoogleAiClient.JsonPromptWith | google_ai_client.py:137-140 | the JSON prompt is the prompt, then the JSON instruction, then the schema sentence exactly when a schema is given |
| GoogleAiClient.Head | google_ai_client.py:148-150 | the text before the first separator: a prefix of the text without the separator |
| GoogleAiClient.Tail | google_ai_client.py:147-150 | the text after the first separator: a suffix whose length is what remains after it |
| GoogleAiClient.CleanResponse | google_ai_client.py:145-158 | when the response holds two fences, the cleaned text holds none |
| GoogleAiClient.JsonFenceUnbordered | google_ai_client.py:147 | the opening fence cannot overlap itself |
| GoogleAiClient.FirstFence | google_ai_client.py:149-150 | the first fence is found right after a fence-free text not ending in a backtick |
| GoogleAiClient.FencedJsonBlock | google_ai_client.py:147-148 | a fenced JSON block yields exactly its body |
| GoogleAiClient.PlainTextKept | google_ai_client.py:151-158 | a response without backticks is kept as it is |
| GoogleAiClient.ClosingFenceDropped | google_ai_client.py:157-158 | a response with one fence, at its end, loses exactly that fence |
| GoogleAiClient.UpToFirstPrefix | google_ai_client.py:168-171 | the fallback candidate is the prefix through the first closing bracket and has no earlier one |
| GoogleAiClient.ParseResponse | google_ai_client.py:160-176 | a parsable stripped text is the result; any other result comes from the bracket-cut fallback; without `[` or `{` at the start an unparsable text is an error carrying the response |
| GoogleAiClient.GenerateJson | google_ai_client.py:125-176 | a failed generation passes its error through; otherwise the answer is cleaned and parsed |
| GoogleAiTest.FindArg | google-ai-test.js:106-110 | the first argument with the prefix; nothing exactly when no argument has it |
| GoogleAiTest.FlagHasEquals | google-ai-test.js:113-117 | an argument found by a flag's prefix always holds an `=`, so `split('=')[1]` exists |
| GoogleAiTest.Flag | google-ai-test.js:106-117 | a flag has a value exactly when some argument starts with `--name=` |
| GoogleAiTest.FlagValueOf | google-ai-test.js:113-117 | the value read back from `--name=v` is the text of v before its first `=`, and equals v exactly when v has no `=` |
| GoogleAiTest.OtherFlag | google-ai-test.js:106-110 | an argument for one flag never matches the prefix of a flag whose name differs |
| GoogleAiTest.NotJsonFlag | google-ai-test.js:111 | a `--name=value` argument is never the bare `--json` flag |
| GoogleAiTest.FirstWithPrefix | google-ai-test.js:106-110 | `find` returns the first argument with the prefix |
| GoogleAiTest.FlagAt | google-ai-test.js:106-117 | the first argument carrying a flag gives back its `=`-free value |
| GoogleAiTest.LeadingFlags | google-ai-test.js:113-115 | the prompt, model and output the Python client sends are the ones the script reads |
| GoogleAiTest.TemperatureFlag | google-ai-test.js:116 | the temperature flag is read back exactly as sent, or absent when not sent |
| GoogleAiTest.MaxTokensFlag | google-ai-test.js:117 | the token flag is read back exactly as sent, or absent when not sent |
| GoogleAiTest.NoJsonFlag | google-ai-test.js:111-118 | the Python client's command never turns on JSON mode |
| GoogleAiTest.NodeCommandRoundTrip | google-ai-test.js:103-118 | settings without `=` survive the trip through the command line; a missing temperature becomes 0.7 |
| GoogleAiTest.PromptCutAtEquals | google-ai-test.js:113 | a prompt holding `=` reaches the script cut at its first `=` |
| GoogleAiTest.GenerateContent | google-ai-test.js:16-64 | a missing key fails before any request; otherwise the service is asked with the model, the prompt and the config holding exactly the given settings |
| GoogleAiTest.ReplaceLeading | google-ai-test.js:83-85 | replacing the first occurrence of a leading fence drops exactly that prefix |
| GoogleAiTest.JsonBlockUnwrapped | google-ai-test.js:81-90 | a block wrapped in "```json" and "```" comes back whole |
| GoogleAiTest.BareBlockUnwrapped | google-ai-test.js:84-90 | a block in bare fences comes back whole when it does not start with `json` |
| GoogleAiTest.CleanersAgree | google-ai-test.js:81-90 | on a fenced JSON block the script's cleanup and the Python client's agree |
| GoogleAiTest.ParseArgs | google-ai-test.js:105-118 | JSON mode is on exactly when some argument is `--json`; a flag no argument carries takes its default (the stock prompt, `gemini-1.5-flash`, `google_ai_output.md`, 0.7); the token limit is absent exactly when no argument carries it |
| GoogleAiTest.StripFences | google-ai-test.js:81-90 | the cleanup never lengthens the answer, and an answer with no fence at either end is left as it is |
| GoogleAiTest.GenerateJson | google-ai-test.js:73-98 | parsing succeeds exactly when the cleaned, trimmed answer parses, the result is then the parsed value, and a failure reports the original answer |
| GoogleAiTest.Echo | google-ai-test.js:146 | content of at most 1000 characters is echoed whole; longer content shows its first and last 500 characters around the truncation marker |
| GoogleAiTest.RunMain | google-ai-test.js:103-154 | exit code 0 exactly when generation and the write succeed, with the content saved to the output path and echoed; otherwise 1 and nothing echoed; a missing key always gives 1 |
| ImprovedReferenceExtractor.YearMakesStructured | reference_management/improved_reference_extractor.py:34 | a parenthesised four-digit year anywhere in the text makes the reference structured |
| ImprovedReferenceExtractor.PublicationDate | reference_management/improved_reference_extractor.py:44 | a date exists exactly when a year was captured and it is four characters long, and then it is the year followed by `-01-01` |
| ImprovedReferenceExtractor.FallbackTitle | reference_management/improved_reference_extractor.py:58 | the fallback title never exceeds 100 characters |
| ImprovedReferenceExtractor.PublicationNeedsLastIndex | reference_management/improved_reference_extractor.py:61-75 | without a match after the year and with no before-URL match of more than one group, the publication stays `Unknown` |
| ImprovedReferenceExtractor.ReferenceTypeByCues | reference_management/improved_reference_extractor.py:82-96 | the type is the first keyword family found in the lower-cased text (journal/proceedings, book/chapter, conference, thesis/dissertation, report/technical); otherwise a URL containing `wiki` gives Encyclopedia, any other URL Website, and no URL Article |
| ImprovedReferenceExtractor.Unquote | reference_management/improved_reference_extractor.py:113 | removing wrapping quotes never lengthens the title |
| ImprovedReferenceExtractor.UnquoteWrapped | reference_management/improved_reference_extractor.py:113 | a non-empty single-line text between two quote characters comes back without them |
| ImprovedReferenceExtractor.UnquoteUnquoted | reference_management/improved_reference_extractor.py:113 | a title that does not begin with a quote is left unchanged |
| ImprovedReferenceExtractor.Truncate | reference_management/improved_reference_extractor.py:116-117 | a title of at most 255 characters is kept; a longer one becomes its first 252 characters followed by `...`, exactly 255 long |
| ImprovedReferenceExtractor.ExtractReference | reference_management/improved_reference_extractor.py:17-127 | the extracted title is never longer than 255 characters |
| ImprovedReferenceExtractor.ShortTextIsTitle | reference_management/improved_reference_extractor.py:20-31 | a stripped text shorter than 50 characters becomes the title with Unknown authors and publication, no date, no URL, type Article and no stored content; a longer one stores the stripped text as content |
| ImprovedReferenceExtractor.DateFromFourDigitYear | reference_management/improved_reference_extractor.py:42-44 | a publication date is always a four-digit year from a `(YYYY)` in the text followed by `-01-01` |
| ImprovedReferenceExtractor.YearDate | reference_management/improved_reference_extractor.py:42-44 | the date built from the captured year has ten characters, four digits then `-01-01`, and that year appears in parentheses in the text |
| ImprovedReferenceExtractor.UnstructuredIsPlainArticle | reference_management/improved_reference_extractor.py:97-110 | unstructured text yields type Article with no URL, no date and an Unknown publication |
| ImprovedReferenceExtractor.UrlFromText | reference_management/improved_reference_extractor.py:78-79 | an extracted URL occurs in the text and begins, case-insensitively, with `http://`, `https://` or `doi:` |
| ImprovedReferenceExtractor.LongTitleCut | reference_management/improved_reference_extractor.py:113-117 | a structured title longer than 255 characters after unquoting is cut to its first 252 characters plus `...` |
| ImprovedReferenceExtractor.ExtractReferences | reference_management/improved_reference_extractor.py:129-149 | every item returned is non-empty and already stripped |
| ImprovedReferenceExtractor.NoHeaderNothing | reference_management/improved_reference_extractor.py:132-139 | content with none of the section headers (References, Sources, Bibliography, Works Cited, Citations) yields no items |
| JsonFixer.AsciiOnly | core/json_fixer.py:21 | the filtered text is no longer than the input and holds only characters below 128 |
| JsonFixer.AsciiOnlyKeeps | core/json_fixer.py:21 | pure ASCII text is left unchanged |
| JsonFixer.FixJson | core/json_fixer.py:10-50 | the direct parse of the stripped ASCII text when it succeeds; else the parse of the repaired text; only when both fail the manual parse |
| JsonFixer.FixJsonIgnoresNonAscii | core/json_fixer.py:21-50 | the outcome depends only on the ASCII characters of the input |
| JsonFixer.Slice | core/json_fixer.py:66 | Python slicing, with its clamping: within bounds it is the ordinary slice |
| JsonFixer.Inner | core/json_fixer.py:300 | `t[1:-1]` drops the first and last characters of a text of length two or more |
| JsonFixer.CleanKeyUnquotes | core/json_fixer.py:223-225 | a quoted key loses its quotes |
| JsonFixer.ArrayStepBounds | core/json_fixer.py:76-136 | one scanner step adds at most one character to the current item and ends at most one item |
| JsonFixer.ArrayScanOf | core/json_fixer.py:76-136 | no item text is longer than the array content |
| JsonFixer.ArrayPieces | core/json_fixer.py:76-144 | no item text is longer than the array content |
| JsonFixer.CommaSplitsOnlyAtTop | core/json_fixer.py:125-134 | a ',' ends the current item exactly when it is not escaped, outside a string, and both depths are 0 |
| JsonFixer.ArrayEscapeVerbatim | core/json_fixer.py:77-85 | a backslash and the character after it are copied verbatim and change neither the string state nor the depths |
| JsonFixer.PlainStep | core/json_fixer.py:136 | at the top level an ordinary character is appended to the current item |
| JsonFixer.CommaStep | core/json_fixer.py:125-134 | at the top level a ',' after a non-blank item closes that item |
| JsonFixer.ScanPlainText | core/json_fixer.py:76-136 | plain text after a top-level state only grows the current item |
| JsonFixer.ScanJoined | core/json_fixer.py:76-136 | scanning plain items joined by ',' ends with all but the last item closed and the last one current |
| JsonFixer.SplitsJoinedItems | core/json_fixer.py:76-144 | the items of plain texts joined by ',' are those texts |
| JsonFixer.ParsesBracketedList | core/json_fixer.py:64-146 | "[" + the ','-join of plain items + "]" parses to the list of the items parsed one by one |
| JsonFixer.LeadingBlanksKeepBracket | core/json_fixer.py:64-66 | since the slice end is found in the unstripped text, "  [1]" keeps its ']' and parses to ["1]"] |
| JsonFixer.ObjectStepBounds | core/json_fixer.py:163-261 | one scanner step grows the key or the value by at most one character and closes at most one pair |
| JsonFixer.ObjectScanOf | core/json_fixer.py:163-261 | no key or value text is longer than the object content |
| JsonFixer.ObjectScanSnoc | core/json_fixer.py:163-261 | the scan of a longer prefix is one more step of the loop |
| JsonFixer.ObjectPairs | core/json_fixer.py:163-294 | no value text is longer than the object content |
| JsonFixer.ObjectCommaCloses | core/json_fixer.py:219-256 | a pair is closed only by a ',' that is not escaped, outside a string, at depth 0 |
| JsonFixer.ColonEndsKey | core/json_fixer.py:195-197 | the first top-level ':' outside a string ends the key and is dropped |
| JsonFixer.LaterColonInValue | core/json_fixer.py:258-261 | a later ':' belongs to the value |
| JsonFixer.ObjectEscapeVerbatim | core/json_fixer.py:164-178 | a backslash and the character after it are copied verbatim into the key or value and never toggle the string state |
| JsonFixer.NotKeyword | core/json_fixer.py:233-238 | a value not starting with a letter is none of true, false and null |
| JsonFixer.QuotedNumberIsString | core/json_fixer.py:239-243 | a quoted number stays a string, because quotes are tried before `int()` |
| JsonFixer.IntLiteralConverts | core/json_fixer.py:242-243 | a text `int()` accepts converts to its integer |
| JsonFixer.ScalarBranch | core/json_fixer.py:299-322 | a text starting with neither '[' nor '{' goes to the scalar branches |
| JsonFixer.DigitsParseAsInt | core/json_fixer.py:303-304 | all-digit text parses as its integer |
| JsonFixer.QuotedParsesAsString | core/json_fixer.py:299-300 | a quoted text parses as its inner text |
| JsonFixer.ArrayBranch | core/json_fixer.py:64-66 | a text starting with '[' that contains ']' is cut at the last ']' of the unstripped text and scanned |
| JsonFixer.BracketedArray | core/json_fixer.py:64-146 | "[" + j + "]" parses to the list of j's items |
| JsonFixer.ParsedAll | core/json_fixer.py:108-141 | one parsed value per item text, in order |
| JsonFixer.ManualParse | core/json_fixer.py:53-322 | the recursive parse returns what the manual parsing specification gives |
| JsonFixer.ManualJson | core/json_fixer.py:53-322 | a stripped text opening with `[` whose unstripped text has a `]` parses to an array, one opening with `{` that has a `}` to an object, and only such texts give an array or an object |
| JsonFixer.ParseArray | core/json_fixer.py:69-146 | the array loop returns each item text parsed, in order |
| JsonFixer.ParseObject | core/json_fixer.py:154-296 | the object loop returns the properties of the scanned pairs, later keys overwriting |
| JsonFixer.ObjectChar | core/json_fixer.py:163-261 | one turn of the object loop is one step of the object scanner |
| JsonFixer.StoreProperty | core/json_fixer.py:221-255 | closing a pair stores its cleaned key and converted value |
| JsonFixer.Convert | core/json_fixer.py:228-251 | the value conversion tries containers, true/false/null, quoted strings, `int`, `float`, then the raw text |
| ProcessAllReferences.YearOf | batch/process_all_references.py:87-94 | a year exists only for a non-empty string date; it is the ISO year when the date parses, else the first four characters when there are at least four, else empty |
| ProcessAllReferences.Shown | batch/process_all_references.py:104-109 | a field is written into the text exactly when it is truthy |
| ProcessAllReferences.CitationTextShape | batch/process_all_references.py:96-109 | the built text is non-empty, starts with the authors, carries ` (year).` right after them when there is a year, and ends with ` doi:<doi>` when there is a DOI, else with ` <url>` when there is a URL, else with a full stop |
| ProcessAllReferences.ReferenceText | batch/process_all_references.py:80-109 | the text built from a reference's fields is non-empty, starts with the rendered authors, and ends with ` doi:<doi>` when the DOI is truthy, else with ` <url>` when the URL is |
| ProcessAllReferences.TailEnds | batch/process_all_references.py:103-109 | the part after the year ends with the link, and with a full stop when there is no link |
| ProcessAllReferences.BuildCitationText | batch/process_all_references.py:96-109 | appending the pieces one by one gives the citation text the specification function describes |
| ProcessAllReferences.MergedGet | batch/process_all_references.py:159-160 | after `metadata.update(ai_metadata)` a key has the AI value when the AI metadata binds it and its old value otherwise |
| ProcessAllReferences.AiMetadataProcessed | batch/process_all_references.py:150-156 | the AI metadata marks the reference `ai_processed: true` |
| ProcessAllReferences.StoredIsSkipped | batch/process_all_references.py:141-240 | a reference stored with the metadata of its processing is recognised as already processed by the next run |
| ProcessAllReferences.TextForTruthy | batch/process_all_references.py:77-113 | the text sent to the AI is never empty, so the "no reference text" failure cannot occur |
| ProcessAllReferences.ProcessesExactly | batch/process_all_references.py:60-178 | processing succeeds exactly when the reference has a truthy id, the AI answers with an object whose `is_valid_reference` is truthy, and the database update of the merged record succeeds |
| ProcessAllReferences.ProcessReference | batch/process_all_references.py:60-178 | the method's result is the success predicate characterised above |
| ProcessAllReferences.TableSlice | batch/process_all_references.py:43-54 | with a positive limit at most that many rows come back; from a valid offset the rows are a contiguous run of the table starting there, of length `min(limit, rest)`, or the whole rest without a limit |
| ProcessAllReferences.GetAllReferences | batch/process_all_references.py:28-58 | a disconnected client yields no references; a connected one yields the slice of the table for the limit and offset |
| ProcessAllReferences.Limit | batch/process_all_references.py:199-207 | the run covers all references, or `max_references` when it is positive and smaller |
| ProcessAllReferences.VisitedStep | batch/process_all_references.py:211-251 | one batch of the walk is the fetched references followed by the walk from past them |
| ProcessAllReferences.Tally | batch/process_all_references.py:224-248 | processed, failed and skipped always add up to the number of references visited |
| ProcessAllReferences.TallyRaises | batch/process_all_references.py:225 | the run raises exactly when some visited reference is not a dict |
| ProcessAllReferences.VisitReference | batch/process_all_references.py:224-248 | one reference's outcome: raise for a non-dict, skip for one already AI-processed, else processed or failed as `process_reference` succeeds |
| ProcessAllReferences.CountReference | batch/process_all_references.py:237-248 | counting one more reference extends the tally of those seen before by one |
| ProcessAllReferences.ProcessBatch | batch/process_all_references.py:224-248 | the inner loop's counters are the tally of everything visited so far followed by the batch |
| ProcessAllReferences.NoneStays | batch/process_all_references.py:224-248 | once a visit has raised, visiting more references does not undo it |
| ProcessAllReferences.ProcessAllReferencesRun | batch/process_all_references.py:180-257 | the total is the size of an unlimited fetch and the counters are the tally of the references the batch walk visits; the run raises exactly when that tally does |
| ProcessAllReferences.CountAllReferences | batch/process_all_references.py:209-253 | the batch loop's result is the tally of the walk over the batches |
| ProcessAllReferences.VisitsPrefix | batch/process_all_references.py:199-253 | over a connected table with a positive batch size, the loop visits exactly the first `min(total, max_references)` references, each once and in order |
| ProcessAllReferences.VisitsFrom | batch/process_all_references.py:209-253 | from any offset up to the limit the walk visits exactly the table rows between them |
| ProcessAllReferences.DisconnectedDoesNothing | batch/process_all_references.py:39-257 | with a disconnected client nothing is visited and every counter stays zero |
| PromptImporter.LazyClose | prompt_management/prompt_importer.py:32 | the lazy `.*?` stops at the first `}}` after the opening braces, and only when no newline comes before it |
| PromptImporter.GroupsOccur | prompt_management/prompt_importer.py:32-33 | every group the scan yields contains no newline and occurs as `{{group}}` in the text |
| PromptImporter.LazyCloseAt | prompt_management/prompt_importer.py:32 | when the first `}}` is at j and nothing before it is a newline or `}`, the lazy match closes exactly at j |
| PromptImporter.LonePlaceholder | prompt_management/prompt_importer.py:32-33 | a text that is a single `{{x}}` (x free of newlines and `}`) yields exactly the group x |
| PromptImporter.Names | prompt_management/prompt_importer.py:33-40 | the kept names are non-empty and pairwise distinct |
| PromptImporter.NamesExactly | prompt_management/prompt_importer.py:33-40 | a name is kept exactly when it is non-empty and the stripped form of some group |
| PromptImporter.VariablesOf | prompt_management/prompt_importer.py:36-40 | one variable record per kept name, in order |
| PromptImporter.NamesOf | prompt_management/prompt_importer.py:35 | the list of names already collected, one per variable, in order |
| PromptImporter.ExtractVariablesFromPrompt | prompt_management/prompt_importer.py:27-41 | the loop returns exactly the variable records of the distinct non-empty stripped groups |
| PromptImporter.ExtractedVariablesOccur | prompt_management/prompt_importer.py:27-41 | extracted variable names are distinct, non-empty, and each is the stripped content of a `{{…}}` occurring in the text |
| PromptImporter.LogTextOf | prompt_management/prompt_importer.py:58-62 | a log is skipped exactly when its `prompt_text` is missing, falsy, or a string, list or dict of `len` under ten; it raises exactly when the value is truthy and has no `len`; a kept string has at least ten characters and a kept list or dict at least ten items or keys |
| PromptImporter.Texts | prompt_management/prompt_importer.py:68 | the keys of `unique_prompts`, one per entry, in order |
| PromptImporter.Unique | prompt_management/prompt_importer.py:56-75 | the kept entries have pairwise distinct texts and are no more than the logs |
| PromptImporter.UniqueRaisesExactly | prompt_management/prompt_importer.py:57-69 | the first loop fails exactly when some log's `prompt_text` is a truthy value without `len`, or a long list or dict that is not an existing text and so cannot be hashed as a key of `unique_prompts` |
| PromptImporter.UniqueTexts | prompt_management/prompt_importer.py:56-75 | a text is kept exactly when some log carries it, it is long enough and it is not an existing template text |
| PromptImporter.FirstTakerExtends | prompt_management/prompt_importer.py:68-75 | the first log that contributed an entry stays the first when more logs follow |
| PromptImporter.UniqueFirst | prompt_management/prompt_importer.py:68-75 | every kept entry is the one built from the first log with its text (later duplicates do not overwrite it) |
| PromptImporter.NameLine | prompt_management/prompt_importer.py:83-89 | the name line is never empty, and is the stripped first line whenever that is non-empty |
| PromptImporter.TemplateName | prompt_management/prompt_importer.py:90 | a name of at most 50 characters is kept as it is; a longer one becomes its first 47 characters followed by `...` |
| PromptImporter.NameBounded | prompt_management/prompt_importer.py:83-90 | every imported template name has between 1 and 50 characters |
| PromptImporter.Templates | prompt_management/prompt_importer.py:81-106 | one template is attempted per kept entry |
| PromptImporter.TemplatesAt | prompt_management/prompt_importer.py:81-106 | the k-th attempted template is the one built from the k-th kept entry |
| PromptImporter.Created | prompt_management/prompt_importer.py:109-114 | the count of accepted creations never exceeds the templates attempted |
| PromptImporter.CreatedShift | prompt_management/prompt_importer.py:109-114 | attempting one more template adds one to the count exactly when that creation is accepted |
| PromptImporter.UniquePrompts | prompt_management/prompt_importer.py:56-75 | the first loop computes exactly `Unique` |
| PromptImporter.CreateTemplateFor | prompt_management/prompt_importer.py:82-107 | the loop body builds the template `TemplateFor` describes |
| PromptImporter.CreateTemplates | prompt_management/prompt_importer.py:80-114 | the second loop attempts exactly `Templates` of the kept entries and counts the accepted ones |
| PromptImporter.TemplatesSnoc | prompt_management/prompt_importer.py:81-106 | the templates for one more entry extend the previous ones by that entry's template |
| PromptImporter.CreateOne | prompt_management/prompt_importer.py:81-114 | one loop turn extends the attempted templates by one and keeps the count equal to the accepted ones |
| PromptImporter.ImportPromptsFromDatabase | prompt_management/prompt_importer.py:43-117 | fails exactly when the first loop raises; otherwise attempts one template per unique new prompt and returns the accepted count, at most the number of logs |
| PromptManagement.MatchesSound | prompt_management/prompt_management.py:105-106 | every name the `{{([^}]+)}}` scan returns is a non-empty run without `}` that occurs as the placeholder `{{name}}` in the text |
| PromptManagement.Dedup | prompt_management/prompt_management.py:107 | dropping duplicates keeps exactly the same names and leaves no name twice |
| PromptManagement.ExtractVariables | prompt_management/prompt_management.py:103-108 | the extracted variable names are pairwise distinct |
| PromptManagement.ExtractedOccur | prompt_management/prompt_management.py:103-108 | each extracted name is a valid variable name whose placeholder occurs in the template text |
| PromptManagement.ExtractsLonePlaceholder | prompt_management/prompt_management.py:103-108 | a text that is a single placeholder `{{x}}` yields exactly `[x]` |
| PromptManagement.NestedBracesHideName | prompt_management/prompt_management.py:105-106 | for `{{{a}}}` the placeholder `{{a}}` occurs but the scan extracts `{a`, not `a` |
| PromptManagement.ReplaceAllIsSplitJoin | prompt_management/prompt_management.py:116 | replacing every occurrence of a non-empty pattern equals splitting on the pattern and joining with the replacement |
| PromptManagement.RenderWithoutPlaceholders | prompt_management/prompt_management.py:110-119 | rendering with variables none of whose placeholders occur returns the text unchanged |
| PromptManagement.ProvidedPlaceholderReplaced | prompt_management/prompt_management.py:110-119 | a single occurrence of `{{name}}` is replaced by the value and the text around it is kept |
| PromptManagement.RenderOne | prompt_management/prompt_management.py:114-116 | rendering with one variable is one replace-all of its placeholder |
| PromptManagement.PlaceholderUnbordered | prompt_management/prompt_management.py:115 | a placeholder cannot overlap a second copy of itself, so its occurrences are disjoint |
| PromptManagement.ExistingVars | prompt_management/prompt_management.py:264-265 | the name-to-row map has exactly the stored names as keys and maps each to a stored row of that name |
| PromptManagement.ExistingOrder | prompt_management/prompt_management.py:283 | iterating the existing variables visits exactly the stored names |
| PromptManagement.RemoveId | prompt_management/prompt_management.py:284-285 | deleting by id keeps exactly the rows with another id |
| PromptManagement.InsertedFacts | prompt_management/prompt_management.py:271-280 | the insert loop adds rows for exactly the new names not already stored, with fresh ids, and never lowers the id counter |
| PromptManagement.RemoveIdNames | prompt_management/prompt_management.py:284-285 | deleting a stored variable's row removes exactly that name |
| PromptManagement.DeletedNames | prompt_management/prompt_management.py:282-285 | the delete loop removes exactly the stored names that are no longer extracted |
| PromptManagement.SyncedNames | prompt_management/prompt_management.py:262-285 | after synchronising, the stored variable names are exactly the names extracted from the new text |
| PromptManagement.InsertedIdsBelow | prompt_management/prompt_management.py:271-280 | every row id stays below the advanced id counter |
| PromptManagement.DeletedSubset | prompt_management/prompt_management.py:282-285 | deleting only ever removes rows |
| PromptManagement.SyncedWellKeyed | prompt_management/prompt_management.py:262-285 | synchronising keeps row ids unique and at most one row per name |
| PromptManagement.InsertedWellKeyed | prompt_management/prompt_management.py:271-280 | inserting distinct new names keeps row ids unique, one row per name, ids below the counter |
| PromptManagement.PromptTemplate.constructor | prompt_management/prompt_management.py:30-46 | missing id, name, description, text and category take their defaults (fresh id, empty strings, `Content Generation`); the template starts active |
| PromptManagement.PromptTemplate.Row | prompt_management/prompt_management.py:48-64 | the stored row carries the template's id, text and version |
| PromptManagement.PromptTemplate.Render | prompt_management/prompt_management.py:110-119 | the loop's result is the text with each variable's placeholder replaced in turn; no variables leave the text as it is |
| PromptManagement.VersionName | prompt_management/prompt_management.py:330 | the default name of a new version is the old name followed by ` (v…)` |
| PromptManagement.PromptStore.CreatePromptTemplate | prompt_management/prompt_management.py:122-163 | disconnected or duplicate id: nothing changes and None; otherwise the row is stored and one variable row per extracted name is inserted with fresh ids |
| PromptManagement.PromptStore.UpdatePromptTemplate | prompt_management/prompt_management.py:236-300 | refuses when disconnected, without an id or for an unknown template; otherwise stamps the time, stores the row, and the template's variable names become exactly the extracted ones |
| PromptManagement.PromptStore.CreateNewVersion | prompt_management/prompt_management.py:303-350 | it succeeds exactly when connected, the template is stored and the fresh id is unused; then only the fresh id's template and variable rows are added, and the new template has version n+1, the old template as parent, the old tags and category, the new text, and the given name or `<name> (v<n+1>)`; otherwise nothing changes |
| PromptManagement.PromptStore.AddPromptFeedback | prompt_management/prompt_management.py:408-451 | feedback is appended exactly when connected and the rating is in 1..5; templates and variables never change |
| PromptManagement.PromptStore.InitializeDefaultTemplates | prompt_management/prompt_management.py:675-706 | with an active template present nothing changes; otherwise the stored ids become the old ones plus the drawn ones, every old row keeps its value, and each default whose drawn id is fresh is stored with its name, description, text, category and tags, version 1 and no parent |
| PromptManagement.PromptStore.InsertDefault | prompt_management/prompt_management.py:689-697 | one default is stored under its id unless the id is taken, in which case nothing changes |
| PromptManagement.DrawnExactly | prompt_management/prompt_management.py:689 | the ids drawn by the first k defaults are exactly the k draws |
| PromptManagement.DefaultsStoredStep | prompt_management/prompt_management.py:689-697 | one more inserted or refused default keeps the old rows, extends the keys by its draw and stores its row when the draw is fresh |
| PromptManagement.PromptStore.HasActiveTemplate | prompt_management/prompt_management.py:685-687 | the loop finds an active template exactly when one is stored |
| PromptManagement.InsertNames | prompt_management/prompt_management.py:271-280 | the insert loop computes exactly `Inserted` |
| PromptManagement.DeleteStale | prompt_management/prompt_management.py:282-285 | the delete loop computes exactly `Deleted` |
| QualityControl.Thresholds | quality/quality_control.py:43-56 | the thresholds hold every default key and every supplied key; a supplied value overrides, a default fills the rest |
| QualityControl.ScoreFailures | quality/quality_control.py:80-85 | at most one failure per checked score, each naming a checked metric whose value is below its threshold |
| QualityControl.ScoreFailuresEmpty | quality/quality_control.py:77-85 | there is no score failure exactly when every checked metric present in both dictionaries meets its threshold |
| QualityControl.Check | quality/quality_control.py:72-104 | content passes exactly when there are no failures, and the failures are those of its evaluation report |
| QualityControl.ScoreKeysNeverMatch | quality/quality_control.py:80-85 | the evaluator's score keys ("average", "accuracy", …) never match the checked "…_score" keys, so the score read back is 0 and only the word and source counts can fail |
| QualityControl.NoScoreCheckKey | quality/quality_control.py:80-82 | none of the checked score names is a key of the evaluator's scores |
| QualityControl.AdjustedTemperature | quality/quality_control.py:178 | the temperature is the base plus 0.1 per attempt, capped at 0.9 |
| QualityControl.Regenerating | quality/quality_control.py:170-175 | one "Regenerating" status per attempt |
| QualityControl.Select | quality/quality_control.py:285-292 | a comprehension filter keeps exactly the items satisfying the predicate, no more of them than there were |
| QualityControl.SelectTwice | quality/quality_control.py:285-292 | two successive filters are one filter on the conjunction |
| QualityControl.FilteredSelect | quality/quality_control.py:285-292 | a filter applied only when its argument is truthy is a filter on "truthy implies the test" |
| QualityControl.BatchFilterConjunctive | quality/quality_control.py:283-292 | the id, status and section filters together keep, in order, exactly the items that pass every filter that applies |
| QualityControl.QualityControl.constructor | quality/quality_control.py:36-56 | the controller holds the defaults overridden by the supplied thresholds |
| QualityControl.QualityControl.CheckScores | quality/quality_control.py:80-85 | the score loop collects exactly the failures of the checked scores |
| QualityControl.QualityControl.CheckReport | quality/quality_control.py:77-104 | the checks collect the failures of the report, and the content passes exactly when there are none |
| QualityControl.QualityControl.EvaluateContent | quality/quality_control.py:58-104 | a missing file gives (False, no results); otherwise the results are the checked evaluation and the content passes exactly when it has no failures |
| QualityControl.QualityControl.EvaluateExisting | quality/quality_control.py:147-148 | the first evaluation is the check of the existing file, whose score reads as 0 |
| QualityControl.QualityControl.Reevaluate | quality/quality_control.py:193-195 | a regenerated file is checked again and its score reads as 0 |
| QualityControl.QualityControl.Regenerate | quality/quality_control.py:161-246 | at most `max_attempts` "Regenerating" statuses, then "Completed" exactly on success or "Quality Check Failed"; the best score never falls below the first; failure leaves the best score below the average threshold; with a positive average threshold regeneration never succeeds |
| QualityControl.QualityControl.CheckAndRegenerate | quality/quality_control.py:106-246 | no connection, no item, or no file to evaluate gives (False, {}); passing content unforced returns its evaluation with no regeneration; otherwise the statuses and outcome of the regeneration loop |
| QualityControl.QualityControl.CheckFile | quality/quality_control.py:147-246 | once the file exists: passing unforced content succeeds at once; any other outcome comes from the bounded, best-keeping regeneration loop |
| ReferenceImport.CitationKey | reference_management/reference_importer_improved.py:238 | the citation key of an item starts with `REF` |
| ReferenceImport.CitationKeysDistinct | reference_management/reference_importer_improved.py:238 | items at different positions get different citation keys |
| ReferenceImport.KeyPositionOf | reference_management/reference_importer_improved.py:238 | the item position can be read back from its key `REF{i+1}` |
| ReferenceImport.ImportReferences | reference_management/reference_importer_improved.py:180-254 | the nested output and item loops end in the state of the step-by-step import function |
| ReferenceImport.Repeats | reference_management/reference_importer_improved.py:209 | the `any(...)` scan answers whether an earlier item of the same content is equal after stripping |
| ReferenceImport.FreshAppend | reference_management/reference_importer_improved.py:217-248 | appending a title not yet known keeps the newly added titles pairwise distinct |
| ReferenceImport.ItemsLoopKeeps | reference_management/reference_importer_improved.py:207-253 | the item loop keeps the count equal to the number of links, keeps the titles added so far distinct, and only appends titles |
| ReferenceImport.OutputsLoopKeeps | reference_management/reference_importer_improved.py:181-253 | the output loop keeps the same three invariants |
| ReferenceImport.ImportInvariants | reference_management/reference_importer_improved.py:174-256 | after the run the returned count is the number of links made, the existing titles are still at the front, and no imported title repeats an earlier one |
| ReferenceImport.LinksByPosition | reference_management/reference_importer_improved.py:207-253 | every link the item loop makes for one output carries the key of an item among those visited, whose reference was created and linked for that content |
| ReferenceImport.KnownTitleSkipped | reference_management/reference_importer_improved.py:216-219 | an item whose lowered title is already known is skipped without any change |
| ReferenceImport.LinkedContentSkipped | reference_management/reference_importer_improved.py:186-190 | an output whose content already has references adds nothing |
| ReferenceImporter.ExtractReference | reference_management/reference_importer.py:32-69 | the reference type is always `Article`; the authors are the stripped text before the first dot, or "Unknown" when the author pattern fails |
| ReferenceImporter.DotFrom | reference_management/reference_importer.py:38 | the first dot at or after a position, with none before it |
| ReferenceImporter.DotFromFirst | reference_management/reference_importer.py:38 | a dot with none before it is the first one found |
| ReferenceImporter.AuthorGroup | reference_management/reference_importer.py:38-39 | the author group is the non-empty text before the first dot; there is none exactly when the text is empty, starts with a dot or has no dot |
| ReferenceImporter.SpacedGroup | reference_management/reference_importer.py:46 | `\s+([^\.]+)\.` matches blanks, then a group without dots that a dot closes |
| ReferenceImporter.GroupText | reference_management/reference_importer.py:46-52 | a group's text is there exactly when the group matched |
| ReferenceImporter.TitleFromSkips | reference_management/reference_importer.py:46 | the search passes over positions where the title pattern fails |
| ReferenceImporter.AltTitleGroup | reference_management/reference_importer.py:51 | the second-sentence title only matches when the author pattern does |
| ReferenceImporter.PublicationAt | reference_management/reference_importer.py:55 | a publication match starts at a dot |
| ReferenceImporter.PlainCapturesOf | reference_management/reference_importer.py:38-55 | the author capture holds no dot and, followed by a dot, starts the text; a second-sentence title implies an author |
| ReferenceImporter.NoDotNoMatch | reference_management/reference_importer.py:46-55 | without a dot neither the title nor the publication pattern matches |
| ReferenceImporter.TitleAfterYear | reference_management/reference_importer.py:45-48 | for the documented layout `Authors. (Year). Title. ...` the title is the stripped text between "(Year). " and the next dot |
| ReferenceImporter.DateIffParenthesisedYear | reference_management/reference_importer.py:41-64 | the date is `YYYY-01-01` for a four-digit year the text holds in parentheses, and any text holding such a year gets a date |
| ReferenceImporter.TitleFallback | reference_management/reference_importer.py:37-56 | a text without a dot has unknown authors and publication, and its title is its first 100 characters (all of it when shorter) |
| ReferenceImporter.ExtractReferences | reference_management/reference_importer.py:71-91 | every item returned is non-empty and already stripped |
| ReferenceImporter.NoHeaderNothing | reference_management/reference_importer.py:74-81 | content with none of the headers References, Sources, Bibliography or Works Cited yields no items |
| ReferenceImporter.ImportReferencesFromDatabase | reference_management/reference_importer.py:93-176 | the run fails exactly when some reference already exists (`.title` on a dict raises); otherwise it returns the number of references created and linked, which equals the links made |
| ReferenceImporterImproved.ExistingTitles | reference_management/reference_importer_improved.py:175-178 | one lowered title per existing reference, empty for a reference without a title |
| ReferenceImporterImproved.ImportReferencesFromDatabase | reference_management/reference_importer_improved.py:166-256 | the returned count is the import run's count starting from the existing titles, and equals the number of links made |
| ReferenceImporterImproved.RepeatSkipped | reference_management/reference_importer_improved.py:207-211 | an item equal after stripping to an earlier item of the same content is skipped without any change |
| ReferenceImporterImproved.RepeatCheckMatters | reference_management/reference_importer_improved.py:209 | of two equal items the second counts as a repeat and the first does not |
| ReferenceManagement.DecodeMetadata | reference_management/reference_management.py:94-101 | no metadata gives {}, a dict is kept as it is, and a string that does not decode gives {} |
| ReferenceManagement.MetadataRoundTrip | reference_management/reference_management.py:94-101 | metadata stored as its JSON text is decoded back to the same dict |
| ReferenceManagement.WithOverall | reference_management/reference_management.py:503-513 | only the overall score can change; it is kept when set or when some score is missing; otherwise it is the mean of the five scores rounded to the nearest integer |
| ReferenceManagement.OverallInRange | reference_management/reference_management.py:503-513 | five scores in 1..5 give an overall score in 1..5 |
| ReferenceManagement.OverallOfEqualScores | reference_management/reference_management.py:503-513 | five equal scores give that score as the overall score |
| ReferenceManagement.Reference.constructor | reference_management/reference_management.py:29-51 | missing fields default to the fresh id, empty text, "Website" and "system", and the categories default to none |
| ReferenceManagement.RowsFor | reference_management/reference_management.py:452-458 | one category row is inserted per category |
| ReferenceManagement.CategoryIdsOf | reference_management/reference_management.py:297-300 | the category ids of a reference are exactly those of its rows |
| ReferenceManagement.CategoryIdsAppend | reference_management/reference_management.py:297-300 | the category ids of appended rows are appended |
| ReferenceManagement.CategoryIdsOfOthers | reference_management/reference_management.py:449 | deleting one reference's rows leaves every other reference's categories as they were |
| ReferenceManagement.CategoryIdsOfFresh | reference_management/reference_management.py:452-458 | the inserted rows give the new categories to the updated reference and none to any other |
| ReferenceManagement.CategoryIdsOfRemoved | reference_management/reference_management.py:449 | after the delete the updated reference has no category left |
| ReferenceManagement.ReplaceCategoriesExact | reference_management/reference_management.py:447-458 | after an update the reference's categories are exactly the new ones, in order, and every other reference's are unchanged |
| ReferenceManagement.FirstLink | reference_management/reference_management.py:601-605 | the first link row for the pair, when there is one; none when no row links them |
| ReferenceManagement.LinkIdempotent | reference_management/reference_management.py:581-639 | linking a pair a second time returns the first link's id and changes nothing |
| ReferenceManagement.FirstLinkAppend | reference_management/reference_management.py:601-631 | a new link for an unlinked pair is the one later lookups find |
| ReferenceManagement.ReplaceById | reference_management/reference_management.py:567 | the assessment with the same id is replaced and every other is kept |
| ReferenceManagement.AssessmentOf | reference_management/reference_management.py:462-469 | a found assessment is a stored one for that reference |
| ReferenceManagement.ReferenceStore.constructor | reference_management/reference_management.py:226-270 | the store starts with no source, assessment, category row or link |
| ReferenceManagement.ReferenceStore.CreateQualityAssessment | reference_management/reference_management.py:484-529 | an assessment is stored, with its overall score completed, exactly when connected, for a non-empty reference id and a new id; nothing else changes |
| ReferenceManagement.ReferenceStore.UpdateQualityAssessment | reference_management/reference_management.py:532-578 | an existing assessment is replaced, with its overall score completed, exactly when connected and its id is known; nothing else changes |
| ReferenceManagement.ReferenceStore.UpdateReference | reference_management/reference_management.py:413-481 | an update succeeds exactly when connected for a known, non-empty id; it stamps `updated_at`, stores the row and replaces the categories; without an assessment the quality table is kept, with one it becomes `AssessedQuality`; a failed update changes nothing |
| ReferenceManagement.AssessmentOfIndex | reference_management/reference_management.py:464-468 | the assessment found for a reference is its first row in the table, and none is found exactly when no row belongs to it |
| ReferenceManagement.AssessedQualityFound | reference_management/reference_management.py:459-475 | after the update the reference's first assessment is the given one with its overall score, under the stored assessment's id, or under its own id when none was stored |
| ReferenceManagement.ReferenceStore.LinkReferenceToContent | reference_management/reference_management.py:581-639 | without a connection nothing is linked; otherwise the existing link's id is returned, or a new link is appended |
| ReferenceManagement.QualityOf | reference_management/reference_management.py:384 | the quality score defaults to 0 for a reference without one |
| ReferenceManagement.KnownNames | reference_management/reference_management.py:387-388 | only category ids with a known name contribute a name |
| ReferenceManagement.Annotated | reference_management/reference_management.py:380-388 | every listed reference is annotated with its quality score and category names, in order |
| ReferenceManagement.TitleOrder | reference_management/reference_management.py:404 | ordering by title is a total preorder, so the stable sort is well defined |
| ReferenceManagement.ListingMembers | reference_management/reference_management.py:380-404 | a reference is listed exactly when it is annotated, mapped to the requested category (when given) and meets a positive minimum quality (when given) |
| ReferenceManagement.ListReferences | reference_management/reference_management.py:314-404 | the listing never has more entries than the rows the query returned, and no rows give an empty listing |
| ReferenceManagement.ListingSorted | reference_management/reference_management.py:404 | the listing is sorted by title |
| ReferenceManagement.AnnotateReferences | reference_management/reference_management.py:380-388 | the annotation loop yields the annotated listing |
| ReferenceManagement.CitedOrder | reference_management/reference_management.py:720 | ordering by descending relevance, then title, is a total preorder |
| ReferenceManagement.ContentReferences | reference_management/reference_management.py:642-726 | no link of the content, or no returned row, gives `[]`; otherwise the result is a permutation of one annotated entry per returned row |
| ReferenceManagement.ContentReferencesStored | reference_management/reference_management.py:680-717 | each content reference is a returned row, annotated with its quality score, its category names and its link's citation key, context and relevance |
| ReferenceManagement.CitedAll | reference_management/reference_management.py:697-716 | one annotated entry per linked reference |
| ReferenceManagement.ContentReferencesOrdered | reference_management/reference_management.py:720 | content references come in descending relevance (none counting as 0), ties by ascending title |
| ReferenceManagement.TitleScore | reference_management/reference_management.py:812-832 | 100 exactly for an equal title, 75 exactly for a longer title starting with the query, 50 exactly for one containing it otherwise, 25 exactly for one not containing it, all case-insensitive |
| ReferenceManagement.RankOrder | reference_management/reference_management.py:812-834 | ranking by title score, then quality, is a total preorder |
| ReferenceManagement.SearchReferences | reference_management/reference_management.py:767-840 | the search returns one hit per reference |
| ReferenceManagement.Hits | reference_management/reference_management.py:806-808 | each hit carries its row and its quality score |
| ReferenceManagement.SearchOrdered | reference_management/reference_management.py:812-834 | hits come in descending title score, ties by descending quality |
| ReferenceManagement.SearchKeepsRows | reference_management/reference_management.py:767-840 | every hit is a stored reference |
| ReferenceManagement.TypesOf | reference_management/reference_management.py:870 | only typed references are counted by type |
| ReferenceManagement.Present | reference_management/reference_management.py:878 | the quality list keeps only present scores |
| ReferenceManagement.Statistics | reference_management/reference_management.py:843-936 | no references give the zeroed statistics; otherwise the total is the number of references |
| ReferenceManagement.BreakdownsAddUp | reference_management/reference_management.py:886-910 | type counts add up to the number of typed references, category counts to the number of named category rows, and both breakdowns are sorted by descending count |
| ReferenceManagement.TypeBreakdown | reference_management/reference_management.py:886-892 | the counting loop yields the first-occurrence counts, which add up to the number of types |
| ResearchService.PyIn | cloud_run/research_service/app.py:143-503 | `key in j` is key membership on an object, item membership on a list and substring search on a text; any other value raises |
| ResearchService.PyIndex | cloud_run/research_service/app.py:148-261 | a list index is valid exactly from `-n` to `n-1`; a negative index counts from the end |
| ResearchService.Rendered | cloud_run/research_service/app.py:154-289 | the prompt fields render exactly when every subscript succeeds, one text per field |
| ResearchService.Candidate | cloud_run/research_service/app.py:90-196 | the fallback slice exists only when `find(open)` is before `rfind(close) + 1`, and it is the text between them, both brackets included |
| ResearchService.CandidateSpan | cloud_run/research_service/app.py:90-93 | the slice starts with the opening bracket and ends with the closing one, no opening bracket precedes it and no closing one follows; there is none exactly when no opening bracket occurs or no closing bracket comes after the first opening one |
| ResearchService.DecodeWithFallback | cloud_run/research_service/app.py:84-103 | the answer itself when it decodes; else the decoded bracketed slice; else the "could not parse" error when there is no slice |
| ResearchService.SurroundedValue | cloud_run/research_service/app.py:84-96 | when the answer fails to decode but the bracketed part inside it decodes, the text around the brackets is dropped and that value is used |
| ResearchService.Fields | cloud_run/research_service/app.py:38-41 | a falsy body is a 400 "No request data provided"; the fields are exactly those of an object body |
| ResearchService.NeedLookup | cloud_run/research_service/app.py:133-151 | missing parameters give 400; a document without stored needs gives 404; a success names the requested document, its stored needs and the need index within range; a float index never succeeds, and gives 400 exactly when it is at or past the number of needs; needs stored as a text give, for an index within it, the source handlers' 400 on the one-character need and a crash for find-sources |
| ResearchService.SourceLookup | cloud_run/research_service/app.py:258-261 | a need without `potential_sources` or an index out of range gives 400; a success selects the indexed candidate, counting a negative index from the end; a float index never succeeds, and gives 400 exactly when it is at or past the number of candidates |
| ResearchService.CharacterNeedHasNoSources | cloud_run/research_service/app.py:256-259 | a one-character need read from needs stored as a text has no `potential_sources`, so the source check answers 400 |
| ResearchService.SelectSource | cloud_run/research_service/app.py:237-261 | the need checks, then the source checks on the selected need, passing on the first error |
| ResearchService.WithSourceField | cloud_run/research_service/app.py:320-429 | setting a field of the selected source changes only that source of that need |
| ResearchService.Counted | cloud_run/research_service/app.py:110-217 | the success reply carries the stored value and exists exactly when `len` of it can be taken |
| ResearchService.WithAllNeeds | cloud_run/research_service/app.py:105-108 | the stored document gets the new needs and keeps its references |
| ResearchService.InterleaveHolds | cloud_run/research_service/app.py:50-73 | every field lands in the prompt, which opens with the template's first piece and the first field |
| ResearchService.At | cloud_run/research_service/app.py:157-162 | an empty subscript chain is the value itself; a step on anything but an object binding the key raises |
| ResearchService.WithNeeds | cloud_run/research_service/app.py:205-208 | the update stores exactly the given needs and keeps the other `sources` fields |
| ResearchService.ResearchPrompt | cloud_run/research_service/app.py:154-176 | the prompt exists only for an object need with a statement, and it carries that statement |
| ResearchService.UrlOf | cloud_run/research_service/app.py:274 | only an object has `.get`; a source without `url` shows `Not provided` |
| ResearchService.EvaluatePrompt | cloud_run/research_service/app.py:264-289 | the prompt exists only for an object need and an object source with a title, and it opens with the frame and that title |
| ResearchService.CitationPrompt | cloud_run/research_service/app.py:378-400 | the prompt exists only for an object source, and it opens with the frame and the requested style |
| ResearchService.IntegratePrompt | cloud_run/research_service/app.py:507-532 | the prompt exists only for an object need and an object source, and it carries the integration type |
| ResearchService.Health | cloud_run/research_service/app.py:21-24 | `GET /health` always answers 200 with status `healthy` |
| ResearchService.IdentifySourceNeeds | cloud_run/research_service/app.py:26-114 | a falsy body or a missing `content_id`/`content_text` is a 400 without a write; otherwise the model's decoded needs for the text are stored as `sources.needs`, and a stored document whose answer decodes always gets that write; a failed model call crashes; no error reply writes |
| ResearchService.ResearchNeed | cloud_run/research_service/app.py:153-217 | a write happens exactly when the need renders a prompt, the model answers and its list decodes; then only the selected need changes, gaining `potential_sources`, while the references are kept; an undecodable answer is a 500 carrying it |
| ResearchService.ResearchSources | cloud_run/research_service/app.py:116-217 | the request checks, then the research of the selected need; an error writes nothing |
| ResearchService.EvaluateSelected | cloud_run/research_service/app.py:263-329 | a write happens exactly when the prompt renders, the model answers and its CRAAP evaluation decodes; then only the selected source changes, gaining `evaluation`; an undecodable answer is a 500 carrying it |
| ResearchService.EvaluateSource | cloud_run/research_service/app.py:219-329 | the request checks, then the evaluation of the selected source |
| ResearchService.Union | cloud_run/research_service/app.py:447 | `ArrayUnion` keeps the stored references in order, adds the entry at most once, and the entry is then present |
| ResearchService.StyleOf | cloud_run/research_service/app.py:353 | the requested citation style, `APA` when none is given |
| ResearchService.CiteSelected | cloud_run/research_service/app.py:377-454 | a write happens exactly when the prompt renders, the model answers and its citation decodes; the selected source gains `citation` and a reference entry for it joins the document's references; an undecodable answer is a 500 carrying it |
| ResearchService.GenerateCitation | cloud_run/research_service/app.py:331-454 | the request checks, then the citation for the selected source in the requested style |
| ResearchService.IntegrationOf | cloud_run/research_service/app.py:478 | the requested integration type, `paraphrase` when none is given |
| ResearchService.WithIntegration | cloud_run/research_service/app.py:543-545 | the need gains `integrated_text`, `integration_type` and `selected_source_index`, and nothing else of it changes |
| ResearchService.IntegrateSelected | cloud_run/research_service/app.py:502-556 | a source without a citation is a 400 without a write; with one, a rendered prompt and a model answer always give the write, which stores the model's text in the selected need; otherwise it crashes |
| ResearchService.IntegrationStored | cloud_run/research_service/app.py:542-556 | the write goes to the selected document, keeps its references and needs' number, sets the three integration keys on the selected need and keeps its other keys, and the reply is the text and the integration type |
| ResearchService.IntegrateSource | cloud_run/research_service/app.py:456-556 | the request checks, then the integration of the selected source with the requested type |
| ResearchService.NeedKept | cloud_run/research_service/app.py:133-211 | a write that keeps the number of needs keeps the need a request selects |
| ResearchService.SourceKept | cloud_run/research_service/app.py:258-261 | a need whose candidates keep their number keeps the source an index selects |
| ResearchService.SelectionKept | cloud_run/research_service/app.py:237-324 | after a source is written, the same request selects the same need and source, as now stored |
| ResearchService.CitationEnablesIntegration | cloud_run/research_service/app.py:429-504 | after `generate-citation` stores a citation, `integrate-source` with the same request finds the same source and its citation, so it is never refused for lacking one |
| ResearchService.ResearchStore.Commit | cloud_run/research_service/app.py:105-108 | the handler's write, if any, is applied to the document collection and its reply returned |
| ResearchService.ResearchStore.IdentifySourceNeedsHandler | cloud_run/research_service/app.py:26-114 | the reply and the new collection are those of `IdentifySourceNeeds` on the old collection |
| ResearchService.ResearchStore.ResearchSourcesHandler | cloud_run/research_service/app.py:116-217 | the reply and the new collection are those of `ResearchSources` on the old collection |
| ResearchService.ResearchStore.EvaluateSourceHandler | cloud_run/research_service/app.py:219-329 | the reply and the new collection are those of `EvaluateSource` on the old collection |
| ResearchService.ResearchStore.GenerateCitationHandler | cloud_run/research_service/app.py:331-454 | the reply and the new collection are those of `GenerateCitation` on the old collection |
| ResearchService.ResearchStore.IntegrateSourceHandler | cloud_run/research_service/app.py:456-556 | the reply and the new collection are those of `IntegrateSource` on the old collection |
| ResearchService.Committed | cloud_run/research_service/app.py:105-547 | only the named document changes; with no write nothing changes |
| ResearchService.ErrorKeepsStore | cloud_run/research_service/app.py:40-504 | a reply other than success leaves the collection as it was |
| PyMath.RoundDiv | reference_management/reference_management.py:513 | Python's `round(n / d)`: the result is within half of `d` of the quotient, and a tie goes to the even neighbour |
| PyMath.RoundDivMonotone | reference_management/reference_management.py:513 | rounding never reverses the order of two quotients |
| PyMath.RoundDivExact | reference_management/reference_management.py:513 | an exact quotient is kept |
| PyMath.Clamp | quality/content_evaluation.py:147 | `max(lo, min(hi, x))` lies between the bounds and keeps a value already between them |
| Lists.SortBy | reference_management/reference_management.py:404 | the sort is a permutation of its input |
| Lists.InsertSorted | reference_management/reference_management.py:404 | inserting into an ordered list keeps it ordered |
| Lists.SortBySorted | reference_management/reference_management.py:404 | the sorted list is ordered by the key |
| Lists.SortByMembers | reference_management/reference_management.py:404 | sorting neither adds nor drops an element |
| Lists.SortByOrdered | reference_management/reference_management.py:404 | sorting an already ordered list leaves it unchanged, so equal keys keep their order |
| Lists.Filter | reference_management/reference_management.py:389-400 | the comprehension keeps exactly the elements that pass, and never more than the input |
| Lists.FilterConcat | reference_management/reference_management.py:389-400 | filtering a concatenation is concatenating the filtered parts |
| Lists.ToMapKeys | reference_management/reference_management.py:359 | a dict built from pairs has exactly the keys of the pairs |
| Lists.ToMapLast | reference_management/reference_management.py:359 | the last pair of a key gives its value |
| Lists.CountsTotal | reference_management/reference_management.py:888-889 | the counts add up to the number of elements counted |
| Lists.CountsCount | reference_management/reference_management.py:888-889 | each key's count is the number of its occurrences |
| StrUtil.StripIdempotent | reference_management/reference_importer.py:89 | stripping twice is stripping once |
| StrUtil.BlankIffStripsEmpty | reference_management/reference_importer.py:89 | a text strips to empty exactly when it is all whitespace |
| StrUtil.JoinSplit | workflows/content_workflow_with_ai_references.py:85 | joining the parts of a split with the separator gives the text back |
| StrUtil.SpaceRunEnd | quality/content_evaluation.py:221 | the greedy `\s*` passes only blanks and stops at the first non-blank or at the end |
| StrUtil.SplitParts | workflows/content_workflow_with_ai_references.py:85-94 | a split has two or more parts exactly when the separator occurs; then the first part is the text before its first occurrence |
| Json.EscapeChar | batch/process_all_references.py:97 | `repr` copies a printable character other than the backslash and the quote, and escapes every other one |
| Json.Escaped | batch/process_all_references.py:97 | an escaped text is never shorter than the text |
| Json.EscapedPlain | batch/process_all_references.py:97 | a plain text is not changed by escaping inside single quotes |
| Json.ReprStr | batch/process_all_references.py:97 | `repr` of a text is quoted, with the same quote at both ends |
| Json.ReprStrPlain | batch/process_all_references.py:97 | a plain text is shown between single quotes, unchanged |
| Json.Repr | batch/process_all_references.py:97 | a list is shown in square brackets and a dict in braces |
| Json.LastIndex | batch/process_all_references.py:97 | the position found is the last binding of the key |
| Json.LastIndexIsGet | batch/process_all_references.py:97 | the value a dict shows for a key is the one `d.get(key)` gives |
| Json.ReprPlainTexts | batch/process_all_references.py:97 | a list of plain texts is shown as `['a', 'b']` |
| Json.PyStr | batch/process_all_references.py:97 | an f-string shows a text as itself and any other value as its `repr` |
| Json.Scaled | cloud_run/research_service/app.py:148 | scaling by a power of ten keeps a non-negative number non-negative |
| Json.Mantissa | cloud_run/research_service/app.py:148 | `whole.frac` is at least its whole part, and equals it without a fraction |
| Json.FloatValue | cloud_run/research_service/app.py:148 | a float literal read as a negative number starts with `-` |
| Json.FloatValueOfDigits | cloud_run/research_service/app.py:148 | a literal of digits has the value of the integer it spells |
| Json.FloatValueOfPointZero | cloud_run/research_service/app.py:148 | `k.0` has the value `k` |
| Json.FloatAtLeastPointZero | cloud_run/research_service/app.py:148 | `float("k.0") >= n` holds exactly when `k >= n` |
| Json.KeysFrom | cloud_function/main.py:214 | every key listed from a position is bound in the dict, and at most one key per remaining binding |
| Json.DictKeys | cloud_function/main.py:214 | iterating a dict gives keys that are all bound |
| Json.KeysFromHas | cloud_function/main.py:214 | a key first bound at or after a position is listed from it |
| Json.FirstBindingOf | cloud_function/main.py:214 | every binding has a first binding of the same key at or before it |
| Json.DictKeysComplete | cloud_function/main.py:214 | a key is listed exactly when the dict binds it |
| Json.Put | batch/process_all_references.py:160 | a set key gets the new value and every other key keeps its value |
| Json.ZeroFloatsFalsy | app/web_view.py:1017-1022 | a zero float is falsy whatever its spelling, `0.0` as well as `0e5`, so `or ''` replaces it |
| Json.NonZeroFloatsTruthy | app/web_view.py:1017-1022 | a non-zero float, `NaN` and `Infinity` are truthy and kept |
| Json.FloatValueOfZeroExponent | app/web_view.py:1017-1022 | a zero mantissa with any exponent has the value zero |
| Json.DictGet | web_view.py:119 | `d.get(key, default)` succeeds exactly on a dict, giving the bound value or the default |
| SourceEvaluation.FindYear | source_evaluation.py:31-36 | the first index at or after `from` where "(dddd)" occurs, none before it; none when there is no such index |
| SourceEvaluation.PostInit | source_evaluation.py:30-67 | the citation and source type are kept, and each of the year, authors, title, publication, URL and DOI that is already set is kept |
| SourceEvaluation.BracketEnd | source_evaluation.py:40 | the `]` that closes the lazy `(.*?)` is the first one, with no newline before it |
| SourceEvaluation.BracketEndAt | source_evaluation.py:40 | the first `]` on the line, with no newline before it, is the one found |
| SourceEvaluation.CitationAuthors | source_evaluation.py:38-43 | authors are found only in a citation that starts with '[', and there is at least one (possibly empty) name |
| SourceEvaluation.PostInitAuthors | source_evaluation.py:38-43 | a citation `[..]` without authors gets the comma-separated, stripped names inside the first brackets, and so at least one |
| SourceEvaluation.BracketedCitationHasAuthority | source_evaluation.py:38-43 | every source parsed from a `[..]` line therefore has authors and an authority score of at least 3 |
| SourceEvaluation.TitleStop | source_evaluation.py:47 | the lazy title group stops at the first place where an optional '*' and a '.' close it, before any newline |
| SourceEvaluation.TitleAt | source_evaluation.py:47 | a title match starts with ". " |
| SourceEvaluation.FindTitle | source_evaluation.py:45-49 | the title found is the one of some matching position; none is found only when no position matches |
| SourceEvaluation.FindTitleAt | source_evaluation.py:45-49 | the leftmost matching position gives the title found, as `re.search` does |
| SourceEvaluation.NextStar | source_evaluation.py:53 | the next '*' at or after a position, with none before it |
| SourceEvaluation.NextStarAt | source_evaluation.py:53 | a '*' with none before it is the next one found |
| SourceEvaluation.PublicationAt | source_evaluation.py:53 | a publication match starts at a '*' and captures a non-empty text without '*' |
| SourceEvaluation.FindPublication | source_evaluation.py:51-55 | the publication found is non-empty and holds no '*'; none is found only when no position matches |
| SourceEvaluation.FindPublicationAt | source_evaluation.py:51-55 | the leftmost matching position gives the publication |
| SourceEvaluation.PostInitPublication | source_evaluation.py:51-55 | a source without a publication gets the stripped text between the first matching pair of '*' |
| SourceEvaluation.RunEnd | source_evaluation.py:59 | the greedy `\S+` stops at the first whitespace or at the end |
| SourceEvaluation.UrlBody | source_evaluation.py:59 | a URL match starts with `http://` or `https://` and has at least one non-blank character after the scheme |
| SourceEvaluation.FindUrl | source_evaluation.py:57-61 | the URL found starts with `http://` or `https://` and holds no whitespace; none is found only when no position matches |
| SourceEvaluation.FindUrlAt | source_evaluation.py:57-61 | the leftmost position where a URL starts gives the URL found, running to the first whitespace |
| SourceEvaluation.FindDoi | source_evaluation.py:63-67 | the DOI found is non-empty and holds no whitespace; none is found only when `https://doi.org/` followed by a non-blank never occurs (the '.' matching any character but newline) |
| SourceEvaluation.FindDoiAt | source_evaluation.py:63-67 | the leftmost match gives the DOI found: the non-blank run after its `https://doi.org/` |
| SourceEvaluation.Stripped | source_evaluation.py:45-67 | `group(1).strip()` is applied exactly when there is a match |
| SourceEvaluation.PostInitYear | source_evaluation.py:32-36 | an unset year becomes the integer of the four digits of the first "(dddd)" in the citation, a value in 0..9999 |
| SourceEvaluation.PostInitKeeps | source_evaluation.py:30-67 | a source whose year, authors, title, publication, URL and DOI are all set is left unchanged |
| SourceEvaluation.Currency | source_evaluation.py:145-186 | the score is in 1..5; no year gives 1; an age of at most one year gives 5; more than fifteen years gives 1 |
| SourceEvaluation.CurrencyMonotone | source_evaluation.py:157-186 | a more recent year never scores lower on currency |
| SourceEvaluation.CurrencyFastMovingStricter | source_evaluation.py:157-186 | for the same year, a technology or AI source never scores higher than a source of another type |
| SourceEvaluation.FirstContained | source_evaluation.py:220-224 | the index of the first needle, in list order, occurring in the text; none before it; none when no needle occurs |
| SourceEvaluation.AuthorityScore | source_evaluation.py:214-246 | the score is in 1..5; it is 1 exactly when there is no publication, no author and no DOI; otherwise at least 3 |
| SourceEvaluation.FindVenue | source_evaluation.py:220-224 | the venue loop stops at the first academic indicator contained in the lower-cased publication |
| SourceEvaluation.FindOrg | source_evaluation.py:228-233 | the organisation loop stops at the first reputable organisation contained in the joined, lower-cased authors |
| SourceEvaluation.FirstContainedIs | source_evaluation.py:220-233 | a needle that occurs after needles that do not is the one the loops stop at |
| SourceEvaluation.FirstContainedNone | source_evaluation.py:220-233 | when no needle occurs, the loops find nothing |
| SourceEvaluation.EvaluateAuthority | source_evaluation.py:189-248 | the score is the authority score and the notes are the note list joined with "; " |
| SourceEvaluation.CheckVenue | source_evaluation.py:217-224 | the publication step adds a point exactly when some indicator is found, with its note |
| SourceEvaluation.CheckOrg | source_evaluation.py:226-233 | the authors step adds a point exactly when some organisation is found, with its note |
| SourceEvaluation.RatingMonotone | source_evaluation.py:103-116 | a higher average never gets a lower rating |
| SourceEvaluation.TotalScore | source_evaluation.py:92-96 | five scores on the 1..5 scale total between 5 and 25 |
| SourceEvaluation.AverageScore | source_evaluation.py:99-101 | five times the average is the total; on the 1..5 scale the average lies between 1 and 5 |
| SourceEvaluation.QualityRating | source_evaluation.py:104-116 | on totals, the rating is Excellent from 22.5, Very Good from 20, Good from 15, Fair from 10 and Poor below, each band exactly |
| SourceEvaluation.RatingOnTotal | source_evaluation.py:91-116 | "Excellent" exactly when the total of the five scores is at least 22.5; "Poor" exactly when it is below 10 |
| SourceEvaluation.EvaluateSource | source_evaluation.py:251-283 | the source is kept, relevance, accuracy and purpose are 3, currency and authority lie in 1..5, and the notes cover the five criteria |
| SourceEvaluation.EvaluatedRatingRange | source_evaluation.py:274-281 | with three scores fixed at 3 the total is in 11..19, so an evaluated source is rated "Fair" or "Good" |
| SourceEvaluation.EvaluateSources | source_evaluation.py:286-298 | one evaluation per source, in the same order |
| SourceEvaluation.FromCitation | source_evaluation.py:326-327 | a source built from a line keeps the line as its citation; its authors are those of the leading brackets (none without brackets), and it has no publication when no `*..*` pair matches |
| SourceEvaluation.SourcesSection | source_evaluation.py:314-318 | there is no section exactly when "## Sources" followed by whitespace occurs nowhere |
| SourceEvaluation.CitationLines | source_evaluation.py:322-327 | the kept lines are non-empty, start with '[', and are no more than the section's lines |
| SourceEvaluation.ParsedSourcesShape | source_evaluation.py:314-328 | no section gives no sources; every parsed source's citation is a non-empty line starting with '[', and the source is the one `__post_init__` completes from that line |
| SourceEvaluation.ParseSourcesFromMarkdown | source_evaluation.py:301-328 | the returned sources are those of the parsing specification |
| SourceEvaluation.CitationSources | source_evaluation.py:324-327 | the append loop yields one source per line that starts with '[', in order |
| SourceEvaluation.CitationLinesAppend | source_evaluation.py:324-327 | the line filter distributes over concatenation, so the kept lines keep their order |
| SupabaseClient.FirstId | supabase_client.py:194 | no rows give no id; an id is the `id` of the first returned row |
| SupabaseClient.IsConnected | supabase_client.py:42-67 | connected exactly when the client was created and its probe query succeeds |
| SupabaseClient.Cells | supabase_client.py:107-133 | the copy succeeds exactly when every copied column is in the row, and then holds each column's cell under its field name, in order |
| SupabaseClient.ProcessRow | supabase_client.py:107-133 | an admitted row's record exists exactly when its cells can be copied; it starts with the content id and takes `Dependencies` from the row, empty when the column is absent |
| SupabaseClient.ProcessedExactly | supabase_client.py:100-134 | the loop keeps one record per admitted row, in order, each built from its own row, and raises exactly when some row lacks the content-id column or an admitted row lacks a copied column |
| SupabaseClient.UpsertedIdsValid | supabase_client.py:102-104 | no upserted record has an empty content id or one starting with `#` |
| SupabaseClient.ImportInventory | supabase_client.py:87-146 | without a client, or when a row raises, nothing is upserted and the result is False; otherwise the processed records are upserted and the result is True exactly when there is at least one |
| SupabaseClient.InventoryColumnCount | supabase_client.py:107-133 | the inventory copies 21 columns besides the content id, dependencies and the two timestamps |
| SupabaseClient.ImportContentInventoryFromCsv | supabase_client.py:87-146 | the same outcome with the inventory's own columns |
| SupabaseClient.NoneStays | supabase_client.py:101-146 | a row that raises ends the import whatever rows follow |
| SupabaseClient.LogPrompt | supabase_client.py:148-172 | without a client nothing is inserted; otherwise the row is inserted and the returned id is the first row's id |
| SupabaseClient.StoredText | supabase_client.py:182 | the stored text is a prefix of the output of at most 10000 characters, the whole output exactly when it fits, and exactly 10000 characters otherwise |
| SupabaseClient.LogGenerationOutput | supabase_client.py:174-212 | without a client the result is False; otherwise the row stores the truncated text and the dumped metadata only when it is truthy, the reply is the new id, and the full text goes to `content_files` exactly when it exceeds 10000 characters and an id came back |
| SupabaseClient.FullTextKept | supabase_client.py:182-205 | with a truthy output id the full text is always stored, in the output row or in `content_files` |
| SupabaseClient.InventoryFilters | supabase_client.py:220-229 | one equality filter for each truthy argument among content id, section and status, and none for a falsy one |
| SupabaseClient.SelectExactly | supabase_client.py:220-233 | the query keeps exactly the table rows that pass every filter |
| SupabaseClient.GetContentInventory | supabase_client.py:214-239 | without a client there are no rows |
| SupabaseClient.InventoryMatches | supabase_client.py:214-239 | a row is returned exactly when it is in the table and has the requested content id, section and status, where each is given |
| SupabaseClient.PassesInventory | supabase_client.py:220-229 | a row passes the filters exactly when it has each given value |
| SupabaseClient.StatusUpdate | supabase_client.py:241-262 | an update is sent exactly when the client exists; it sets status and timestamp, and the dumped metadata exactly when it is truthy |
| SupabaseClient.NextVersion | supabase_client.py:422-425 | 1 when there are no versions, else the newest version's number plus one |
| SupabaseClient.NextVersionIsNew | supabase_client.py:385-425 | over versions listed newest first the new number exceeds every existing one, and is at least 1 when they are |
| SupabaseClient.SaveContentVersion | supabase_client.py:403-469 | without a client, or when `float` fails on a truthy temperature, nothing is saved; a saved row has the next version number and carries model, temperature and metadata exactly when each is truthy |
| SupabaseClient.ZeroTemperatureDropped | supabase_client.py:438-439 | a temperature of 0.0 is not saved with the version |
| SupabaseClient.AvailableModelsDistinct | supabase_client.py:471-483 | the offered models are four distinct names, `gemini-1.5-flash` first |
| TemplateSections.StripLeftOf | test/setup_local_env.py:36 | the result is a suffix of the input, everything dropped is one of the stripped characters, and the result does not start with one |
| TemplateSections.StripRightOf | test/setup_local_env.py:36 | the result is a prefix of the input, everything dropped is one of the stripped characters, and the result does not end with one |
| TemplateSections.StripOf | test/setup_local_env.py:36 | `strip('*: ')` leaves a name that neither starts nor ends with `*`, `:` or a space |
| TemplateSections.StripOfDropsEnds | test/setup_local_env.py:36 | the name is a contiguous run of the line, and what is dropped before and after it consists of stripped characters only |
| TemplateSections.Sections | test/setup_local_env.py:33-37 | there are never more names than lines |
| TemplateSections.SectionPositions | test/setup_local_env.py:34 | the section lines are exactly those starting with `**` and containing `:`, listed in increasing order |
| TemplateSections.SectionsFromSectionLines | test/setup_local_env.py:33-37 | one name per section line, in order: the k-th name is the stripped k-th section line |
| TemplateSections.ExtractSectionsFromTemplate | test/setup_local_env.py:28-123 | the loop over the lines of the template returns the names of its section lines, in order |
| WebView.InitialSteps | web_view.py:126-147 | the four fixed steps with their names and descriptions, all pending |
| WebView.SourceError | web_view.py:158 | a falsy error is not a source error; a non-empty text error is one exactly when its lower case contains `source` |
| WebView.ExpectedSteps | web_view.py:149-164 | four steps with the fixed names; "In Progress" starts the first step; "Completed" completes all four; "Failed" with a source error completes the first and puts the error on the second, otherwise the error is on the first; any other status leaves them pending |
| WebView.AllComplete | web_view.py:153-154 | every step is marked complete and nothing else about it changes |
| WebView.OneErrorWhenFailed | web_view.py:149-164 | some step is in error exactly when the item's status is "Failed" |
| WebView.OutputError | web_view.py:157 | the lookup of the output's error succeeds exactly when the output and its metadata are objects, and is None when there is no metadata |
| WebView.CompleteAll | web_view.py:153-154 | the loop marks every step complete |
| WebView.ComputeSteps | web_view.py:149-164 | for a failed item whose output lookup raises the endpoint raises; otherwise the steps are the expected steps for the status and the latest output's error |
| WebView.ContentProgress | web_view.py:88-174 | `{}` when a read raises, the item is missing, or there are no prompts or outputs; otherwise the record names the item, its status, the expected steps, and the model and temperature of the latest prompt with defaults `Unknown` and 0.7; when the reads succeed, the item and the latest log's metadata are objects and the steps compute, the record is returned |
| WorkflowSupabase.PrefixStarts | workflows/content_workflow_supabase.py:227 | text built by appending to the heading still starts with it |
| WorkflowSupabase.KindOf | workflows/content_workflow_supabase.py:207-215 | the tutorial template is chosen exactly for a lower-cased type `tutorial`, the case-study one exactly for `case study` |
| WorkflowSupabase.Render | workflows/content_workflow_supabase.py:217-350 | every template starts with the `# <title>` heading |
| WorkflowSupabase.TemplateContent | workflows/content_workflow_supabase.py:196-215 | the template content opens with the title's heading, and is the tutorial template for a `tutorial` type, the case-study template for `case study` and the article template for any other (lowered) type, filled with the title and the section (default `Learning`) |
| WorkflowSupabase.TemplateSources | workflows/content_workflow_supabase.py:352-397 | three sources dated the current year and the two before, with distinct `ref` ids and titles naming the content's title |
| WorkflowSupabase.OtherTypesGetArticle | workflows/content_workflow_supabase.py:214-215 | every other content type gets the article template |
| WorkflowSupabase.MissingTypeIsArticle | workflows/content_workflow_supabase.py:207 | an item without a content type defaults to `Article` and gets the article template |
| WorkflowSupabase.SourceObject | workflows/content_workflow_supabase.py:367-838 | each source the workflow writes itself has an id and a citation, and its entry is `[id] citation` |
| WorkflowSupabase.Objects | workflows/content_workflow_supabase.py:367-395 | one citable source object per field record, in order |
| WorkflowSupabase.Strings | workflows/content_workflow_supabase.py:371-389 | the author list as JSON strings, one per author |
| WorkflowSupabase.CopyrightContent | workflows/content_workflow_supabase.py:615-627 | the copyright notice content starts with the `# <title>` heading |
| WorkflowSupabase.CitableAdded | workflows/content_workflow_supabase.py:399-438 | adding sources that all have an id and a citation never raises |
| WorkflowSupabase.Checked | workflows/content_workflow_supabase.py:774-784 | a source passes exactly when it is a dict with id, title and authors, the authors a list or a string |
| WorkflowSupabase.CheckedFixesAuthors | workflows/content_workflow_supabase.py:779-782 | a passing source keeps every other key; string authors become a one-element list; list authors leave it unchanged |
| WorkflowSupabase.TryEach | workflows/content_workflow_supabase.py:774-784 | checking n sources without error yields n checked sources |
| WorkflowSupabase.TryEachOk | workflows/content_workflow_supabase.py:774-784 | the checks pass exactly when every source passes |
| WorkflowSupabase.TryEachItems | workflows/content_workflow_supabase.py:774-784 | after passing, each checked source is that source's check result, in order |
| WorkflowSupabase.TryEachErrorSticks | workflows/content_workflow_supabase.py:774-784 | the first failing source decides the error |
| WorkflowSupabase.Validated | workflows/content_workflow_supabase.py:771-772 | an answer that is not a list is rejected |
| WorkflowSupabase.ValidatedIff | workflows/content_workflow_supabase.py:771-784 | a list answer is accepted exactly when every source passes |
| WorkflowSupabase.ValidatedAuthorsAreLists | workflows/content_workflow_supabase.py:771-784 | an accepted answer keeps its length and every source has list-valued authors, other keys unchanged |
| WorkflowSupabase.ReplaceNext | workflows/content_workflow_supabase.py:782 | writing the fixed source in place extends the checked prefix by one |
| WorkflowSupabase.ValidateSources | workflows/content_workflow_supabase.py:771-784 | the checking loop, fixing authors in place, computes exactly `Validated` |
| WorkflowSupabase.FallbackModel | workflows/content_workflow_supabase.py:801 | the fallback model always differs from the failed one, and is gemini-1.5-pro unless that one failed |
| WorkflowSupabase.SelectedSources | workflows/content_workflow_supabase.py:762-853 | the first answer is used when it validates; when both calls fail the single default source is used |
| WorkflowSupabase.KindOfError | workflows/content_workflow_supabase.py:609-673 | the copyright path is taken exactly for a message with `finish_reason`, `4` and `copyrighted material`; the key path exactly for an invalid-key message that is not a copyright one |
| WorkflowSupabase.Finish | workflows/content_workflow_supabase.py:857-889 | a success returns the content and ends with status `Completed`; any error raised while adding sources fails the run |
| WorkflowSupabase.GenerateContentForItem | workflows/content_workflow_supabase.py:476-908 | a refused guard updates nothing; otherwise `In Progress` is followed by `Completed` exactly on success, which is exactly when content is returned |
| WorkflowSupabase.GuardsBeforeUpdates | workflows/content_workflow_supabase.py:512-527 | a completed item without force, or one with unmet dependencies, returns `(False, None)` before any status update |
| WorkflowSupabase.InvalidKeyUsesTemplate | workflows/content_workflow_supabase.py:673-703 | an invalid API key yields the item's template content with its template sources, as a success |
| WorkflowSupabase.OtherErrorFails | workflows/content_workflow_supabase.py:704-908 | any other generation error fails the run |
| WorkflowSupabase.DefaultSourcesUsed | workflows/content_workflow_supabase.py:825-858 | when both source calls fail, the saved content carries the default source |
| WorkflowWithAiReferences.ReferencesPromptWith | workflows/content_workflow_with_ai_references.py:45-72 | the prompt starts with the base prompt and a blank line, carries the `REFERENCES_JSON` marker, and ends with the instruction text |
| WorkflowWithAiReferences.CreateContentWithReferencesPrompt | workflows/content_workflow_with_ai_references.py:35-72 | the prompt is the content prompt, a blank line, then the reference instructions, which name `REFERENCES_JSON` and close the prompt |
| WorkflowWithAiReferences.BracketSpan | workflows/content_workflow_with_ai_references.py:98-100 | the first `\[(.*?)\]` match is a bracketed part of the text with no `]` inside it |
| WorkflowWithAiReferences.SpanShape | workflows/content_workflow_with_ai_references.py:98-100 | the span from the first `[` to the first `]` after it is bracketed, occurs in the text and holds no other `]` |
| WorkflowWithAiReferences.NoSpanIff | workflows/content_workflow_with_ai_references.py:98-99 | there is no match exactly when no `]` follows any `[` |
| WorkflowWithAiReferences.Between | workflows/content_workflow_with_ai_references.py:85-94 | `parts[1]` of the split holds no marker |
| WorkflowWithAiReferences.ExtractReferencesJson | workflows/content_workflow_with_ai_references.py:74-111 | without the marker the content comes back unchanged with no references; with it the clean content is the stripped text before the first marker, holds no marker, and the references are read from the text up to the second marker |
| WorkflowWithAiReferences.SectionReferences | workflows/content_workflow_with_ai_references.py:96-109 | the references are the parsed bracketed span when there is one (none when it fails to parse); otherwise the whole section parsed, wrapped in a list when it is no list, and none when it fails to parse |
| WorkflowWithAiReferences.LaterSectionsIgnored | workflows/content_workflow_with_ai_references.py:85-94 | only the text between the first and the second marker is read; whatever follows a second marker is dropped |
| WorkflowWithAiReferences.OneSection | workflows/content_workflow_with_ai_references.py:85-94 | with a single marker the clean content is the stripped body and the references come from the stripped rest |
| WorkflowWithAiReferences.FirstOccurrence | workflows/content_workflow_with_ai_references.py:85 | in `a + marker + b` with no marker in `a`, the split's first part is exactly `a` |
| WorkflowWithAiReferences.Batches | workflows/content_workflow_with_ai_references.py:368-369 | every batch is non-empty and at most `batch_size` long, and all but the last are exactly that long |
| WorkflowWithAiReferences.BatchesCover | workflows/content_workflow_with_ai_references.py:368-369 | the batches are consecutive slices that together give back the items in order |
| WorkflowWithAiReferences.Processed | workflows/content_workflow_with_ai_references.py:371 | one processed entry per reference text, each the AI processing of its own text |
| WorkflowWithAiReferences.ProcessedAppend | workflows/content_workflow_with_ai_references.py:371-372 | processing two runs of texts one after the other is processing their concatenation |
| WorkflowWithAiReferences.ProcessedBatchesConcat | workflows/content_workflow_with_ai_references.py:367-372 | processing batch by batch and extending is processing the concatenated batches |
| WorkflowWithAiReferences.BatchingKeepsOrder | workflows/content_workflow_with_ai_references.py:366-380 | batching changes neither which references are processed nor their order |
| WorkflowWithAiReferences.ProcessInBatches | workflows/content_workflow_with_ai_references.py:366-380 | a batch size of 0 raises `ValueError`, a negative one processes nothing, and a positive one processes every reference once, in order |
| WorkflowWithAiReferences.AppendBatch | workflows/content_workflow_with_ai_references.py:368-372 | extending the results for the items before a batch by the batch's results gives the results up to the batch's end |
| WorkflowWithAiReferences.ProcessExistingReferences | workflows/content_workflow_with_ai_references.py:306-391 | False when not connected, the item is not found, there are no outputs, the output yields no reference items, or the batch size is 0; otherwise True for a negative batch size, and for a positive one exactly when storing the processed references succeeds |
| WorkflowWithReferences.DoiAt | workflows/content_workflow_with_references.py:64 | a `doi:` match at a position yields a non-empty group found right after the four-character prefix |
| WorkflowWithReferences.DoiOrgAt | workflows/content_workflow_with_references.py:64 | a doi.org match yields a non-empty group that occurs in the text |
| WorkflowWithReferences.DoiFrom | workflows/content_workflow_with_references.py:64 | the leftmost match from a position yields a non-empty run of non-space characters of the text |
| WorkflowWithReferences.Doi | workflows/content_workflow_with_references.py:63-65 | an extracted DOI is a non-empty run of non-space characters that occurs in the text |
| WorkflowWithReferences.DoiFromFinds | workflows/content_workflow_with_references.py:64 | once the pattern matches at some position, the search from any earlier position finds a match |
| WorkflowWithReferences.DoiSchemeFirst | workflows/content_workflow_with_references.py:64 | when the `doi:` form matches anywhere, its leftmost match is the DOI and the doi.org form is not consulted |
| WorkflowWithReferences.ExtractReference | workflows/content_workflow_with_references.py:26-78 | the reference has type Article, stores the text itself and is active; a date has ten characters; a DOI occurs in the text |
| WorkflowWithReferences.ExtractReferences | workflows/content_workflow_with_references.py:80-107 | every item returned is non-empty and already stripped |
| WorkflowWithReferences.NoHeaderNothing | workflows/content_workflow_with_references.py:80-107 | content with none of the headers References, Sources, Bibliography or Works Cited yields no items |
| WorkflowWithReferences.DefaultQualityOverall | workflows/content_workflow_with_references.py:168-177 | a new reference stored with the default scores 4, 5, 4, 4, 4 gets the overall score round(21/5) = 4 |
| WorkflowWithReferences.FirstTitled | workflows/content_workflow_with_references.py:133-134 | the position of the first existing reference with a truthy title equal in lower case, or -1 when there is none |
| WorkflowWithReferences.Extracted | workflows/content_workflow_with_references.py:124-126 | one extracted reference per item text |
| WorkflowWithReferences.ExtractedAt | workflows/content_workflow_with_references.py:126 | the k-th extracted reference is the one read from item k |
| WorkflowWithReferences.FindExisting | workflows/content_workflow_with_references.py:133-150 | the search loop stops at the first existing reference with that title |
| WorkflowWithReferences.StoreReferencesInDatabase | workflows/content_workflow_with_references.py:109-200 | the loop over the items returns the ids of the step-by-step store function |
| WorkflowWithReferences.ExtractAt | workflows/content_workflow_with_references.py:126 | reads the reference of item i |
| WorkflowWithReferences.StoreItem | workflows/content_workflow_with_references.py:126-198 | one pass of the loop is one step of the store function |
| WorkflowWithReferences.KnownTitleLinksExisting | workflows/content_workflow_with_references.py:129-152 | a known title is never created again: the titles stay, and either nothing changes or the id of an existing reference with that title is appended |
| WorkflowWithReferences.NewTitleCreated | workflows/content_workflow_with_references.py:154-198 | a new title is created with the default quality scores and linked as `REF{i+1}`; only when both succeed are its id and its lowered title recorded |
| WorkflowWithReferences.RepeatOfNewTitleDropped | workflows/content_workflow_with_references.py:129-193 | a title created earlier in the same run is in the known titles but not among the fetched references, so a repeat of it links nothing |
| WorkflowWithReferences.StepShape | workflows/content_workflow_with_references.py:124-198 | a pass adds at most one id, and adds a title only when it is new and comes with an id |
| WorkflowWithReferences.StoreLoopKeeps | workflows/content_workflow_with_references.py:124-198 | the loop keeps the titles it started with, adds only new distinct ones, and adds at most one id per item |
| WorkflowWithReferences.StoreInvariants | workflows/content_workflow_with_references.py:119-200 | at most one id per item, the existing titles stay at the front, each added title is new and comes with its own id |
| WorkflowWithReferences.GenerateContentForItem | workflows/content_workflow_with_references.py:202-274 | success is the wrapped generation's; without it nothing is returned; without references or without the file there is no text; otherwise the text is the file, and references are stored only when the file has reference items |

## Left out

- External services: Supabase, Firestore, Pub/Sub, Cloud Storage, Vertex AI and Gemini are not modelled; their answers are oracles or inputs, and what a call sends is the result.
- JSON encoding and decoding, and the regex engine, are outside Dafny's reach: decoding is a partial oracle, and lazy or nested patterns arrive as capture values.
- Background threads, thread pools and `time.sleep` rate-limit pauses: the progress updates of `app/web_view.py` run as sequential method calls.
- Logging and console output are not modelled, except where the output is the contract (the console echo and the exit code of `google-ai-test.js`).
- Floating point: temperatures and averages are exact reals or scaled integers, so binary rounding of `0.1` steps is not modelled.
- app/web_view.py: the page and API routes (`format_datetime`, `get_content_item`, `index`, `content`, `content_detail`, `prompts`, `prompt_detail`, `outputs`, `output_detail`, `api_content`, `api_prompts`, `api_outputs`, `api_models`, `models_page`, `content_versions`, `version_detail`, `edit_content`, `content_workflow`, `content_references_page`) only fetch rows and render HTML templates.
- The command-line entry points (`main`) of batch/generate_content_batch.py, cloud_function/main.py, content_workflow_supabase.py, generate_content_batch_improved.py, quality/quality_control.py and workflows/content_workflow_supabase.py parse arguments and log, and are not modelled.
- generate_content_batch_improved.py: `get_generation_order` delegates to the networkx topological sort and is a parameter.
- prompt_management/prompt_management.py: `from_dict`, `get_prompt_template`, `get_prompt_templates`, `log_prompt_usage`, `get_prompt_categories` and `get_prompt_performance_metrics` are plain queries or inserts with no logic of their own beyond the database.
- quality/content_evaluation.py: `_load_content`, `print_evaluation` and `save_evaluation` are file and console I/O.
- quality/quality_control.py: `generate_quality_report` formats a report file.
- reference_management/improved_reference_extractor.py: `test_extraction` only prints examples.
- reference_management/reference_management.py: `to_dict`, `get_reference_categories` and `get_reference_types` copy fields or return query rows unchanged.
- source_evaluation.py: `to_dict` copies fields.
- supabase_client.py: `create_tables` only logs; `get_prompt_logs`, `get_generation_outputs`, `get_full_content`, `get_content_by_id` and `update_content_item` are single queries; the stored versions that `get_content_versions` returns are an input of `save_content_version`.
- test/setup_local_env.py and test/setup_test_env.py: everything except `extract_sections_from_template` writes test directories and fixture files.
- reference_management/reference_importer_improved.py: `extract_reference_from_text` and `extract_references_from_content` are the same code as in the improved extractor, so they are modelled once, in ImprovedReferenceExtractor.
- workflows/content_workflow_supabase.py: `evaluate_sources_with_craap` and the CRAAP results table it appends are not modelled; the CRAAP scoring itself is modelled in SourceEvaluation.
- workflows/content_workflow_with_ai_references.py: `generate_content_for_item`, which generates content with AI references, is not modelled; its prompt, extraction and batching are.
- google_ai_client.py: the module-level client created at import time, and the `__main__` block, are not modelled.
- PromptManagement.ExtractVariables: `list(set(...))` has hash-dependent order; the model fixes it to first-occurrence order, so it states the names exactly but not their order as Python lists them.
- Json.PyStr: a float shows its JSON literal text, where Python shows the shortest repr of the parsed double (`1.50` shows as `1.5`); non-ASCII characters that Python's `repr` escapes (such as U+00A0) are kept as they are.
- ContentEvaluation.MetricsOf: `\w`, `\s` and `\b` are ASCII only, so non-ASCII letters do not count as word characters; the `h1`–`h4` heading texts come from `markdown.markdown` and BeautifulSoup, which are not modelled, and are an input.
- ContentEvaluation.PillarSections: the heading texts are an input, since the Markdown rendering and HTML parsing are not modelled.
- Json.FloatValue: reads a float literal as its exact decimal value, not as the nearest double, so a literal that rounds across an integer (such as `2.99999999999999999`) compares differently than in Python.
- PromptImporter.LogTextOf: the `in` tests on a list or dict text use equality of the JSON values, so Python's equalities across numbers and booleans (`1 == 1.0 == True`) and the key-order blindness of dict equality are not modelled.
- WorkflowSupabase.KindOf: an `Item` has no NULL cell, so a NULL `content_type` reads as a missing one and gets the article template, where `.get` returns `None` and `None.lower()` raises.
- WorkflowSupabase.MissingTypeIsArticle: holds for a missing `content_type`; a NULL one, which raises in the source, is the same row in the model (see KindOf).
- ReferenceImporterImproved.ExistingTitles: a stored reference whose title is NULL gives "" in the model, where `ref.get('title', '').lower()` raises on `None`, because an `Item` cannot hold a NULL cell.
- GoogleAiTest.GenerateJson: JavaScript's `trim()` is modelled by the Python-style `Strip`; the two differ on the separators U+001C to U+001F and on non-ASCII white space.
- GoogleAiTest.Echo: counts characters, where JavaScript's `length` and `substring` count UTF-16 code units, so text with characters outside the Basic Multilingual Plane is cut at other places.
- AppWebView.SearchResults: its `SearchReply` holds the filtered rows, the query and the filters, but not the sorted lists of distinct sections and statuses for the dropdowns, which only feed the page template.
- AppWebView.StatusColor: a list or dict status gives `secondary`, where `dict.get` raises on an unhashable key; the status column holds text.

## Findings

| source | as written | input that shows it | evidently intended | confidence | as-written member | corrected member |
|---|---|---|---|---|---|---|
| batch/generate_content_batch.py:80-81 | `topological_sort` returns its post-order reversed, so every item comes before the items it depends on, and `generate_content_batch` generates dependents first | the graph {a: [b], b: []} gives [a, b] | dependencies first: the post-order itself, [b, a] | high (not executed) | GenerateContentBatch.TopologicalSort, GenerateContentBatch.Schedule, GenerateContentBatch.TwoItemsDependentFirst | GenerateContentBatch.DependencyOrder, GenerateContentBatch.IntendedSchedule, GenerateContentBatch.TwoItemsDependencyFirst |
| app/web_view.py:1006-1039 | the search loop assigns every scanned item's section to the variable `section` that held the request's section filter, so the filter uses the last scanned item's section | query `q`, section `S1`, rows in sections S1 and S2 that both match `q` gives only the S2 row | filter on the requested section: only the S1 row | high (not executed) | AppWebView.SearchResults, AppWebView.SectionFilterOverwritten | AppWebView.IntendedResults, AppWebView.IntendedExact, AppWebView.IntendedSectionKept |
