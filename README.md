# AnecDOT training-pair pipeline, modelled in Dafny

AnecDOT builds a corpus of (instruction, Graphviz DOT) training pairs. Scrapers pull
DOT examples from the Graphviz gallery and attribute documentation. An extractor runs
Python finite-state-machine code in a child process and captures the DOT it prints. A
generator asks a language model for graphs. Every candidate DOT text goes through the
same steps: it is compiled by the Graphviz `dot` binary, given a content-hash id,
checked against the unified record schema and appended to a JSON Lines stream by a
writer that refuses ids it has already seen. Around that pipeline sit text utilities
for training:
- pulling a DOT graph out of a model's answer;
- repairing common syntax slips;
- injecting deliberate errors for error-correction pairs;
- regenerating prompts;
- loading and splitting the dataset.

This project models that core in Dafny, one module per source file:

| module | source | form |
|---|---|---|
| `DotValidator` | validation/dot_validator.py | decision chain over the compiler's outcome; a class for the memo cache and the batch loop |
| `Schema` | validation/schema.py | record datatype, ordered field checks, dictionary round trip |
| `IdGenerator` | common/id_generator.py | id formatting and extraction over a SHA-256 digest given as a function |
| `Writer` | validation/writer.py | class holding the id set and the file's lines; priming loop, check-then-append |
| `Metrics` | common/metrics.py | class of run counters |
| `Detector` | parsers/fsm_extractor/detector.py | visitor class over pre-parsed nodes; the two context scans as loops |
| `Sandbox` | parsers/fsm_extractor/sandbox.py | the wrapper code (`wrapper_code`), stdout delimiter scan and stderr message scan |
| `FsmExtractor`, `FsmMain` | parsers/fsm_extractor/extractor.py, `__main__.py` | per-match dispatch, context truncation, location ids, the statistics loop |
| `GraphvizGallery`, `AttributeDocs`, `ScraperGate` | scrapers/graphviz_gallery.py, scrapers/attribute_docs.py | link dedup, DOT-block selection, code-block cleaning, instruction text, confidence, the per-example gate |
| `Eval`, `Postprocess`, `PostprocessCases`, `ErrorInjection` | training/eval.py, training/postprocess_dot.py, training/error_injection.py | DOT text utilities; `PostprocessCases` holds the post-processing of particular texts, among them the four examples of the post-processing self-test |
| `Regenerate`, `PromptsV2`, `Prompts`, `Dataset` | training/regenerate_training_data.py, training/improved_prompts_v2.py, training/improved_prompts.py, training/dataset.py | prompt and dataset transforms |
| `SyntheticValidator`, `Templates`, `GraphTypes` | generators/synthetic_generator/validator.py, templates.py, generators/synthetic_graph_types.py | synthetic record construction and prompts |
| `NlExtractor`, `RepositoryCurator` | parsers/fsm_extractor/nl_extractor.py, parsers/repository_curator.py | docstring cleanup, state-list sentences, the licence filter |
| `PyStr`, `Lists`, `Json`, `Wrappers` | (shared) | Python `str` built-ins, order-preserving dedup, decoded JSON values, `Option`/`Result` |

Code that changes state keeps that form in the model:
- The writer, the metrics, the validation cache, the FSM visitor and the two scrapers are classes with `modifies` clauses.
- Each loop is a method with invariants, proved against a function that specifies it. Lemmas then state what the source promises about that function.

External effects become inputs:
- the compiler's outcome;
- the child process's outcome;
- the SHA-256 and MD5 digests;
- the clock;
- every random draw;
- the parsed AST nodes;
- the JSON-decoded lines.

`PyStr` follows CPython's semantics for the string built-ins the code uses:
- `strip` and `split()` use the full `str.isspace()` set.
- `splitlines` breaks on every Python line boundary.
- Slices clamp their bounds.

## Model

| member | source | states |
|---|---|---|
| IdGenerator.GenerateId | common/id_generator.py:10-36 | the id is the first 16 hex digits of the SHA-256 digest of the DOT text, after the prefix and a '-' when there is a prefix; its last 16 characters are that hash portion whatever the prefix |
| IdGenerator.ExtractHashFromId | common/id_generator.py:39-50 | an id without '-' comes back whole; otherwise the result is what follows the first '-', and the text before that '-' holds none |
| IdGenerator.HashPortionHasNoDash | common/id_generator.py:28-32 | the 16-digit hash portion never contains '-' |
| IdGenerator.ExtractAfterDashFreePrefix | common/id_generator.py:48-50 | splitting at the first '-' gives back the part after a prefix that holds no '-' |
| IdGenerator.ExtractInvertsGenerate | common/id_generator.py:10-50 | round trip: for a prefix without '-' (or none), extracting from a generated id gives exactly its hash portion |
| IdGenerator.ExtractKeepsPrefixTail | common/id_generator.py:48-50 | as written, an id generated under "graphviz-gallery" extracts to "gallery-" followed by the hash, which is not the hash |
| IdGenerator.ExtractHashAfterLastDash | common/id_generator.py:39-50 | the corrected extraction: what follows the last '-', which itself holds no '-', or the whole id |
| IdGenerator.ExtractAfterLastDashInvertsGenerate | common/id_generator.py:10-50 | round trip for every prefix, hyphenated ones included, with the corrected extraction |
| Metrics.PassRateOf | common/metrics.py:49-54 | 0 before any validation; otherwise the percentage of validated examples that passed, between 0 and 100 |
| Metrics.ScraperMetrics.constructor | common/metrics.py:27-38 | every counter starts at 0, the run is unfinished, and the start time is the given one or the clock's time with a 'Z' |
| Metrics.ScraperMetrics.Counts | common/metrics.py:27-32 | the six counters are reported under exactly their attribute names |
| Metrics.ScraperMetrics.Increment | common/metrics.py:40-43 | a counter grows by the count and nothing else changes; a name that is not an attribute is ignored; a timestamp, a method or a special (double-underscore) attribute raises and nothing changes |
| Metrics.ScraperMetrics.Add | common/metrics.py:42-43 | the named counter grows by the count; the other counters and both timestamps keep their values |
| Metrics.CountersDisjoint | common/metrics.py:40-43 | no counter name is also a timestamp, method or special attribute, so each name has exactly one outcome |
| Metrics.ScraperMetrics.Finish | common/metrics.py:45-47 | the end time is stamped with a 'Z'; counters and start time do not change |
| Metrics.ScraperMetrics.PassRate | common/metrics.py:49-54 | the pass rate depends only on the two validation counters |
| Metrics.ScraperMetrics.DurationSeconds | common/metrics.py:56-62 | an unfinished run has lasted 0 seconds |
| Metrics.ScraperMetrics.ToDict | common/metrics.py:80-82 | the dictionary holds exactly the eight fields, each counter as its number |
| Schema.Message | validation/schema.py:64-85 | every rejection message starts with the key of the rejected field and a space |
| Schema.EveryFieldChecked | validation/schema.py:63-85 | every field of the record has a check in the check order |
| Schema.RejectedFirstUnique | validation/schema.py:63-85 | at most one check is the first one a record fails |
| Schema.Validate | validation/schema.py:57-87 | the verdict is true exactly when no message comes back |
| Schema.ValidateMeaning | validation/schema.py:57-87 | a record is accepted exactly when every field passes its rule; a rejected record gets the message of the first field, in check order, that fails |
| Schema.ValidateRejectsFirst | validation/schema.py:63-85 | a rejected record fails some check first, and the message names that check |
| Schema.RejectsEarly | validation/schema.py:64-71 | an empty id, source, URL or licence is the first failure, in that order |
| Schema.RejectsLate | validation/schema.py:72-85 | a record that passes the first four checks and is rejected fails a later check first |
| Schema.RejectsLast | validation/schema.py:76-85 | a record that passes the first six checks and is rejected fails one of the last three first |
| Schema.ToDictShape | validation/schema.py:44-46 | a serialised record has exactly the ten record keys, with the id and DOT text as strings |
| Schema.FromDict | validation/schema.py:52-55 | an unknown key or a missing required key raises; a record built from a dictionary serialises back to it, up to the optional snippet |
| Schema.FromDictRejectsUnknownKey | validation/schema.py:52-55 | one undeclared key makes the constructor raise, whatever the other keys hold |
| Schema.FromDictRejectsConfidence | validation/schema.py:52-55 | a dictionary with an `instruction_confidence` entry is rejected |
| Schema.FromDictInvertsToDict | validation/schema.py:44-55 | round trip: building a record from its own dictionary gives the same record |
| Schema.ToDictFieldsFirst | validation/schema.py:44-46 | the id, source, URL, licence and task type read back from the dictionary as themselves |
| Schema.ToDictFieldsLast | validation/schema.py:44-46 | the input, DOT text, status, timestamp and snippet read back from the dictionary as themselves |
| Schema.ValidateRecord | validation/schema.py:90-103 | a construction failure is reported as invalid with a "Missing or invalid fields: " message; otherwise the record's own validation decides |
| Schema.ValidateRecordAgreesWithValidate | validation/schema.py:44-103 | validating a serialised record gives the same verdict and message as validating the record |
| Writer.EffectOf | validation/writer.py:45-53 | a decoded object with an `id` entry contributes that id |
| Writer.ScanIdsMeaning | validation/writer.py:41-56 | priming keeps exactly the ids of the lines that carry one, and nothing at all when some line makes it raise |
| Writer.NoRecoveryAfterAbort | validation/writer.py:54-56 | once a line abandons priming, the lines after it cannot bring any id back |
| Writer.RecordLines | validation/writer.py:95-96 | one JSON line per record, the i-th line being the i-th record's |
| Writer.JsonlWriter.constructor | validation/writer.py:25-39 | a new writer starts from the ids of the file already at the path (none when it is missing), has written nothing, and keeps its invariant |
| Writer.JsonlWriter.LoadExistingIds | validation/writer.py:41-56 | the id set is the ids read from the file, or empty when reading raised; the file is untouched |
| Writer.JsonlWriter.IsDuplicate | validation/writer.py:58-67 | an id is a duplicate exactly when the writer knows it |
| Writer.JsonlWriter.CountExisting | validation/writer.py:107-113 | the count is the number of distinct known ids |
| Writer.JsonlWriter.Append | validation/writer.py:69-105 | a known id is skipped and nothing changes; an invalid record raises `ValueError` with the validation message; a failed write raises and nothing changes; otherwise exactly one line is appended and the id remembered, so no id is written twice and every written record is valid |
| Writer.JsonlWriter.Commit | validation/writer.py:94-100 | appending a new valid record keeps the invariant: the file is its old lines plus the lines of the written records, all valid and with distinct ids |
| Writer.DistinctSnoc | validation/writer.py:84-99 | a record whose id is unknown keeps the written ids known and distinct |
| Writer.AllValidSnoc | validation/writer.py:88-91 | a validated record keeps every written record valid |
| Writer.RecordLinesSnoc | validation/writer.py:95-96 | writing one more record adds exactly its line at the end |
| AttributeDocs.SentenceEnd | scrapers/attribute_docs.py:79 | the position of the first '.', '!' or '?', with none of them before it, or the length when there is none |
| AttributeDocs.FirstSentence | scrapers/attribute_docs.py:79-81 | the text before the first sentence end, followed by a '.' |
| AttributeDocs.CleanDescriptionMeaning | scrapers/attribute_docs.py:63-83 | no description gives none; a short one not starting with "type:" is only stripped; a "type:" description made only of type and default parts gives none; a cleaned text over 150 characters ends with '.' |
| AttributeDocs.FullTemplate | scrapers/attribute_docs.py:87 | the instruction ends with the whole description |
| AttributeDocs.ShortTemplate | scrapers/attribute_docs.py:89 | the instruction ends with "..." and quotes at most 80 characters of the description |
| AttributeDocs.GenericTemplate | scrapers/attribute_docs.py:91 | the generic instruction is never empty |
| AttributeDocs.ToInstruction | scrapers/attribute_docs.py:59-91 | the generic sentence exactly when no cleaned description remains; the full template for 31 to 149 characters; otherwise the shortened template |
| AttributeDocs.CommaBeforeNewline | scrapers/attribute_docs.py:173-174 | the first ',' on the current line, with no ',' or newline before it, or -1 |
| AttributeDocs.SubTaggedDropsClause | scrapers/attribute_docs.py:173-174 | a tag followed on its line by a ',' is removed together with everything up to and including that comma, and the removal goes on after it |
| AttributeDocs.SubTaggedKeeps | scrapers/attribute_docs.py:173-174 | a text in which the tag occurs nowhere is kept as it is |
| AttributeDocs.BaseScore | scrapers/attribute_docs.py:166-181 | the score before penalties is 0.65, 0.70 or 0.80, and 0.65 without a description |
| AttributeDocs.CalculateConfidence | scrapers/attribute_docs.py:163-192 | the score lies between 0.60 and 0.80; it is the base score unless the DOT text is over 2000 characters (0.05 less) or a short example of a trivial attribute, and only those lower it |
| AttributeDocs.ExtractAttributeLinks | scrapers/attribute_docs.py:142-161 | the absolute URLs of the attribute links, each once, in page order |
| AttributeDocs.AttributeLinksMeaning | scrapers/attribute_docs.py:142-161 | the link list has no repeats, holds exactly the attribute links of the page, and orders them by first appearance |
| AttributeDocs.TrimSlashes | scrapers/attribute_docs.py:200 | the result is a prefix of the text that does not end in '/', and only slashes were dropped |
| AttributeDocs.AttributeNameOf | scrapers/attribute_docs.py:200 | the attribute name holds no '/' |
| AttributeDocs.AttributeNameOfPage | scrapers/attribute_docs.py:200 | for a page URL ending in "/name/", the attribute name is that name |
| AttributeDocs.CleanCodesMeaning | scrapers/attribute_docs.py:229-242 | the example codes have no repeats; a code is kept exactly when it is a block that is not a shell command and has at least 20 characters |
| AttributeDocs.CleanBlocks | scrapers/attribute_docs.py:229-242 | the cleaning loop with its `seen` set yields the deduplicated usable blocks in order |
| AttributeDocs.Scored | scrapers/attribute_docs.py:245-257 | an example keeps its code, position, URL and attribute, with a confidence between 0.60 and 0.80 |
| AttributeDocs.ScoredAllAt | scrapers/attribute_docs.py:245-257 | the i-th example is the i-th code, scored and numbered i |
| AttributeDocs.ScoreExamples | scrapers/attribute_docs.py:245-257 | the scoring loop keeps every code, since no score is below the minimum |
| AttributeDocs.PageCodesMeaning | scrapers/attribute_docs.py:213-242 | a page's example codes have no repeats; a text is one exactly when it is not a shell command, has at least 20 characters, and is the stripped text of a `<pre>` that looks like DOT or of a `<code>` outside every `<pre>` that starts with `digraph` or `graph` |
| AttributeDocs.ExtractAttributeContent | scrapers/attribute_docs.py:194-262 | one example per example code of the page (selected from its `<pre>` and standalone `<code>` texts, then cleaned), in order, with the attribute name from the URL, its confidence and its position |
| AttributeDocs.AttributeIdMeaning | scrapers/attribute_docs.py:359-362 | an id is "attr-docs-", the 16-digit content hash, then the position for every block but the first; equal code at different positions gets different ids |
| AttributeDocs.RecordArgumentsRejected | scrapers/attribute_docs.py:365-376 | the record constructor refuses the `instruction_confidence` argument, so building the record always raises |
| AttributeDocs.WithConfidenceRejected | scrapers/attribute_docs.py:375 | any arguments with `instruction_confidence` added are refused |
| AttributeDocs.AttributeDocsScraper.constructor | scrapers/attribute_docs.py:97-124 | a dry run has no writer; otherwise the writer starts from the ids already in the output file; all counters start at 0 |
| AttributeDocs.AttributeDocsScraper.ProcessExampleAsWritten | scrapers/attribute_docs.py:344-389 | as written: a failing example counts as failed; a compiling one counts as passed and then raises `TypeError`, so nothing is ever written |
| AttributeDocs.AttributeDocsScraper.ProcessExample | scrapers/attribute_docs.py:344-389 | corrected: a failing example counts as failed and nothing is written; a compiling one counts as passed, then its record is counted in a dry run, skipped as a duplicate, refused, or appended as one line with its id remembered |
| ScraperGate.CandidateBlocksMeaning | scrapers/attribute_docs.py:213-227 | the candidate blocks are the stripped `<pre>` texts that start with `digraph` or `graph` or hold `digraph` or `graph {` in their first 50 characters, then the stripped standalone `<code>` texts that start with `digraph` or `graph`; every candidate passes the `<pre>` test |
| ScraperGate.CodeRuleStricter | scrapers/graphviz_gallery.py:176-190 | a standalone `<code>` text that is selected would also be selected as a `<pre>` text |
| ScraperGate.PreTakesLateGraph | scrapers/graphviz_gallery.py:179-180 | a `<pre>` text with `graph {` after its start is selected |
| ScraperGate.CodeRefusesLateGraph | scrapers/graphviz_gallery.py:189 | a standalone `<code>` text with `graph {` after its start is not selected |
| ScraperGate.DotPreBlocks | scrapers/graphviz_gallery.py:176-181 | the loop over `<pre>` elements keeps, stripped and in order, exactly the texts that look like DOT |
| ScraperGate.DotCodeBlocks | scrapers/attribute_docs.py:222-227 | the loop over standalone `<code>` elements keeps, stripped and in order, exactly the texts that start like a graph |
| ScraperGate.CollectCandidates | scrapers/attribute_docs.py:213-227 | the two loops give the `<pre>` candidates followed by the `<code>` candidates |
| ScraperGate.Publish | scrapers/attribute_docs.py:378-389 | a dry run only counts; a known id counts as a duplicate and leaves the file alone; an invalid record or failed write raises with the counters untouched; otherwise one line is appended and counted as written |
| DotValidator.ToSchemaStatus | validation/dot_validator.py:57-59 | the status is one the schema accepts, "passed_compiler" exactly for a valid verdict and "failed_compiler" otherwise |
| DotValidator.ToDict | validation/dot_validator.py:61-69 | the dictionary has exactly the five verdict keys, with the validity as a boolean |
| DotValidator.Utf8Length | validation/dot_validator.py:109 | the UTF-8 length of a text lies between its length and four times it |
| DotValidator.PreCheck | validation/dot_validator.py:101-113 | blank text is rejected as empty, text over 10 MiB of UTF-8 as too large; only other text goes on to the compiler, and every early verdict is invalid |
| DotValidator.Compile | validation/dot_validator.py:123-195 | `GraphvizNotFoundError` exactly when `dot` is missing; otherwise valid exactly when `dot` exits with 0 and, in strict mode, writes nothing to stderr; a message exactly when invalid; the version and method are recorded |
| DotValidator.StrictOnlyRejectsMore | validation/dot_validator.py:158-172 | a text valid in strict mode is valid without it |
| DotValidator.ValidateUncached | validation/dot_validator.py:79-120 | without the cache, the early checks decide first and the compiler decides the rest |
| DotValidator.RejectedBeforeCompiling | validation/dot_validator.py:101-113 | blank and oversized texts get the same invalid verdict whatever the toolchain, even without `dot` |
| DotValidator.DistinctCardinality | validation/dot_validator.py:72-73 | a list of distinct keys has as many elements as its length |
| DotValidator.Without | validation/dot_validator.py:72-73 | removing a key keeps every other key, keeps the list distinct, and shortens it by one exactly when the key was there |
| DotValidator.ValidationCache.constructor | validation/dot_validator.py:72-76 | the cache starts empty, with no hits or misses |
| DotValidator.ValidationCache.SizeBounded | validation/dot_validator.py:72-73 | the memo never holds more than 1000 verdicts |
| DotValidator.ValidationCache.Stats | validation/dot_validator.py:244-257 | the hit rate lies between 0 and 1 and is the share of lookups that hit |
| DotValidator.ValidationCache.Clear | validation/dot_validator.py:260-262 | the memo and the counters are emptied |
| DotValidator.ValidationCache.Touch | validation/dot_validator.py:72-76 | a hit returns the stored verdict, makes its key the most recently used, and counts one hit |
| DotValidator.ValidationCache.Store | validation/dot_validator.py:72-76 | a new verdict is stored, every other stored verdict keeps its value, and the invariant holds, evicting the least recently used key when full |
| DotValidator.ValidationCache.ValidateDot | validation/dot_validator.py:79-120 | early rejections and uncached calls leave the cache alone; a hit returns the stored verdict; a miss compiles to "png", counts a miss and stores the verdict; `GraphvizNotFoundError` is never stored |
| DotValidator.ValidationCache.BatchStep | validation/dot_validator.py:235-236 | one call of a batch returns a fresh verdict or the one stored before the batch, and every stored verdict stays one of those |
| DotValidator.ValidationCache.Filled | validation/dot_validator.py:217-241 | a list whose every slot is filled gives the values in the same order |
| DotValidator.ValidationCache.ValidateBatch | validation/dot_validator.py:198-241 | run one after another, one verdict per input in input order, each agreeing with validating that input alone; a missing compiler aborts the batch |
| Lists.DedupInOrder | scrapers/graphviz_gallery.py:130-137 | the `seen`-set loop yields each element at its first occurrence |
| Lists.DedupMeaning | scrapers/graphviz_gallery.py:130-137 | the result has no repeats, holds the same elements as the input, and orders them by first occurrence |
| GraphvizGallery.ToInstruction | scrapers/graphviz_gallery.py:51-55 | the instruction starts with the title; it is the title alone exactly when there is no description, and otherwise continues with ". " and the description |
| GraphvizGallery.ExtractExampleLinks | scrapers/graphviz_gallery.py:110-138 | the absolute URLs of the example links, each once, in page order |
| GraphvizGallery.ExampleLinksMeaning | scrapers/graphviz_gallery.py:110-138 | the link list has no repeats, holds exactly the example links of the page, and orders them by first appearance |
| GraphvizGallery.FindCharFrom | scrapers/graphviz_gallery.py:202 | the first position at or after the start holding the character, or -1 when there is none |
| GraphvizGallery.QuotedDigraphMeaning | scrapers/graphviz_gallery.py:200-205 | a text taken from a shell command starts with "digraph", holds no quote, and stood between two quotes in the block |
| GraphvizGallery.QuotedBetween | scrapers/graphviz_gallery.py:201-204 | the text between a quote opening `"digraph` and the next quote starts with "digraph", holds no quote and stood quoted |
| GraphvizGallery.CleanBlockMeaning | scrapers/graphviz_gallery.py:192-209 | a shell block gives at most a quoted digraph, and nothing without `"digraph`; another block is kept whole exactly when it opens with "digraph", "graph" or "strict", and is dropped otherwise |
| GraphvizGallery.UniqueCodesMeaning | scrapers/graphviz_gallery.py:192-217 | the example codes have no repeats and are exactly the cleaned blocks longer than ten characters |
| Lists.CollectSelectBoth | scrapers/graphviz_gallery.py:173-209 | a value cleaned from the selected blocks of two groups, one after the other, comes from a selected block of one group, and every such value is among them |
| GraphvizGallery.CleanAll | scrapers/graphviz_gallery.py:193-209 | the cleaning loop yields each block's cleaned text in block order |
| GraphvizGallery.UniqueLongCodes | scrapers/graphviz_gallery.py:211-217 | the de-duplicating loop yields the codes longer than ten characters, each once, in order of first appearance |
| GraphvizGallery.PageCodesMeaning | scrapers/graphviz_gallery.py:172-217 | a page's example codes have no repeats and are longer than ten characters; a text is one exactly when it is the cleaned text of a stripped `<pre>` that looks like DOT or of a stripped standalone `<code>` that starts like a graph |
| GraphvizGallery.ExtractExampleContent | scrapers/graphviz_gallery.py:140-232 | one example per example code of the page (selected from its `<pre>` and standalone `<code>` texts, cleaned and deduplicated), in order, numbered by position |
| GraphvizGallery.NumberExamples | scrapers/graphviz_gallery.py:219-230 | the i-th example carries the i-th code and the number i |
| GraphvizGallery.GalleryIdMeaning | scrapers/graphviz_gallery.py:338-341 | an id is "graphviz-gallery-", the 16-digit content hash, then the position for every block but the first; equal code at different positions gets different ids |
| GraphvizGallery.GalleryRecordPassed | scrapers/graphviz_gallery.py:336-354 | every record the gallery builds is filed as passed_compiler with an accepted task type |
| GraphvizGallery.GraphvizGalleryScraper.constructor | scrapers/graphviz_gallery.py:61-85 | a dry run has no writer; otherwise the writer starts from the ids already in the output file; all counters start at 0 |
| GraphvizGallery.GraphvizGalleryScraper.ProcessExample | scrapers/graphviz_gallery.py:319-365 | a failing example counts as failed and nothing is written; a compiling one counts as passed, then its record is counted in a dry run, skipped as a duplicate, refused, or appended as one line with its id remembered; a missing compiler changes nothing |
| Detector.ImportsSnoc | parsers/fsm_extractor/detector.py:142-147 | one more line extends the kept imports by that line exactly when it is a wanted import |
| Detector.ScanUpClimbs | parsers/fsm_extractor/detector.py:129-136 | once a code line is taken, the scan climbs to the top of that block of code lines, stopping at the window start |
| Detector.ContextStartMeaning | parsers/fsm_extractor/detector.py:123-136 | the context starts inside the 20-line window, no later than the line above the call; when that line is code, at the top of its code block or the window start, otherwise at the window start |
| Detector.FlagsMeaning | parsers/fsm_extractor/detector.py:53-66 | each import flag is set exactly when a matching import (`GraphMachine` from `transitions.extensions` for the graph flag) has been visited |
| Detector.MatchesJustified | parsers/fsm_extractor/detector.py:70-116 | every match comes from a `StateMachine` subclass or a `Machine`/`GraphMachine` call visited after the import it needs, and no node gives more than one match |
| Detector.FsmDetector.constructor | parsers/fsm_extractor/detector.py:38-51 | the detector holds the source's lines, no matches and all import flags off |
| Detector.FsmDetector.VisitImportFrom | parsers/fsm_extractor/detector.py:53-68 | the flags change as the import requires; the matches do not change |
| Detector.FsmDetector.VisitClassDef | parsers/fsm_extractor/detector.py:70-87 | a `StateMachine` subclass after a `statemachine` import adds one match with its own lines and the earlier imports; nothing else changes |
| Detector.FsmDetector.VisitCall | parsers/fsm_extractor/detector.py:89-116 | a bare `Machine` call after a `transitions` import, or a bare `GraphMachine` call after its import, adds one match with its context; nothing else changes |
| Detector.FsmDetector.VisitAll | parsers/fsm_extractor/detector.py:207-208 | visiting the nodes in order leaves the flags and the matches that the node sequence determines |
| Detector.FsmDetector.ExtractCallWithContext | parsers/fsm_extractor/detector.py:118-154 | the call's lines from the context start, preceded by the earlier `transitions` imports and a blank line when there are any |
| Detector.FsmDetector.FindContextStart | parsers/fsm_extractor/detector.py:123-136 | the backward loop finds the context start |
| Detector.FsmDetector.ExtractNodeSource | parsers/fsm_extractor/detector.py:156-180 | the node's lines, preceded by the earlier FSM-library imports and a blank line when there are any |
| Detector.FsmDetector.CollectImports | parsers/fsm_extractor/detector.py:142-147 | the import loop keeps exactly the wanted import lines, in order |
| Detector.DetectFsmPatterns | parsers/fsm_extractor/detector.py:183-210 | an unreadable file raises; an undecodable or unparsable one gives no matches; a parsed one gives the matches of visiting its nodes |
| Detector.HasFsmImports | parsers/fsm_extractor/detector.py:213-230 | a file that cannot be read does not pass the pre-filter |
| Dataset.ReadAll | training/dataset.py:33-43 | reading a sequence of items gives at most one pair per item |
| Dataset.ReadAllStep | training/dataset.py:34-41 | one more item extends the pairs read by that item's pair, leaves them as they are, or ends reading with its error |
| Dataset.ReadAllErrorSticks | training/dataset.py:62-72 | once an item raises, the later items do not change the outcome |
| Dataset.ReadAllMeaning | training/dataset.py:33-43 | when reading succeeds every item read cleanly, and the pairs are exactly those of the items that give one |
| Dataset.PairOfLine | training/dataset.py:63-72 | a blank or undecodable line is skipped; an object line gives a pair exactly when it has both `input_text` and `output_dot`, carrying those values and its `source` or else the stream's name |
| Dataset.PairOfItem | training/dataset.py:36-41 | an object item gives a pair exactly when it has both `code` and `dot`, carrying those values and the source `statemachine_cat` |
| Dataset.LoadStream | training/dataset.py:61-72 | the loop over one stream file's lines reads its pairs in line order, or stops at the first raising line |
| Dataset.LoadJsonlStreams | training/dataset.py:45-74 | the pairs of the five stream files present, in the fixed file order, each file's in line order |
| Dataset.StreamPairsErrorSticks | training/dataset.py:56-72 | once a stream file raises, the later files do not change the outcome |
| Dataset.LoadPairsJson | training/dataset.py:24-43 | no pairs without the pairs file, otherwise the pairs of its items in order |
| Dataset.LoadAll | training/dataset.py:76-85 | the pairs file's pairs followed by the streams' pairs, or the first error |
| Dataset.StreamLineKept | training/dataset.py:65-70 | an object line is read without error; it is kept exactly when it has both fields; without a `source` the pair's source is the stream file's name |
| Dataset.FormatInstructionShape | training/dataset.py:107-113 | the fallback prompt opens with the user turn holding the input and ends with the model turn holding the output |
| Dataset.CreateDataset | training/dataset.py:117-161 | it fails exactly when no loaded pair is valid, with the message for no pairs or for no valid pairs, or when a valid pair's source is a JSON list or object, which raises `TypeError` building the set of sources; otherwise training and validation parts together are the formatted valid pairs in order |
| Dataset.CreateDatasetSplit | training/dataset.py:147-149 | for a fraction in [0, 1] the training part holds the first floor(n * fraction) examples and validation the rest |
| Dataset.CreateDatasetExamples | training/dataset.py:130-144 | every example carries the input, output and source of a valid loaded pair and its prompt formatted from them |
| Dataset.TallyMeaning | training/dataset.py:178-182 | each source is counted exactly as often as it occurs among the pairs, and nothing else is counted |
| Dataset.TallyIgnoresOrder | training/dataset.py:83 | the counts do not depend on the order of the pairs, so the shuffle does not change them |
| Dataset.TallySum | training/dataset.py:178-182 | the counts of the distinct sources add up to the number of pairs counted |
| Dataset.MeasureLengths | training/dataset.py:176-177 | the lengths of every input and every DOT can be taken exactly when each is a text, a list or an object |
| Dataset.GetStatistics | training/dataset.py:163-189 | an error entry when nothing was loaded or nothing is valid; a `TypeError` when a valid pair's input or DOT is a number or `true`, which has no length, or else when its source is a JSON list or object; otherwise the number of valid pairs and each source's count |
| Dataset.StatisticsSumToTotal | training/dataset.py:178-189 | the per-source counts have exactly the valid pairs' sources as keys and add up to the total |
| ErrorInjection.FirstHit | training/error_injection.py:30 | the first position from the start where the pattern matches, with no match before it, or -1 when it never matches |
| ErrorInjection.SubOnce | training/error_injection.py:30 | a substitution limited to one replacement rewrites the first match only and copies everything else; with no match the text is unchanged |
| ErrorInjection.SubIdentity | training/error_injection.py:72 | a substitution whose every replacement is the matched text itself changes nothing |
| ErrorInjection.QuotedNameAt | training/error_injection.py:30 | a match of `(digraph\|graph)\s+"name"` lies inside the text and its replacement moves no brace |
| ErrorInjection.BacktickMeaning | training/error_injection.py:24-30 | only the first quoted graph name is rewritten, the text around it is copied, a text without one is unchanged, and no brace is added or lost |
| ErrorInjection.EdgePassStep | training/error_injection.py:47-51 | one more line extends the pass by that line, rewritten or kept |
| ErrorInjection.EdgePassMeaning | training/error_injection.py:42-51 | the pass keeps the number of lines; each line is kept or, having "->" and its coin up, has its first "->" replaced; exactly as many lines change as replacements are counted, and at most the drawn maximum |
| ErrorInjection.ReplaceChanges | training/error_injection.py:49 | replacing the first "->" by "--" changes a line that holds "->" |
| ErrorInjection.InjectEdgeOperatorError | training/error_injection.py:33-53 | the edge error as the source computes it, with the `randint(1, 3)` maximum and the per-line coins as inputs |
| ErrorInjection.RewriteEdgeLines | training/error_injection.py:43-51 | the loop over the lines computes the pass |
| ErrorInjection.EdgeOperatorMeaning | training/error_injection.py:33-53 | text that is not a digraph is unchanged; otherwise it keeps its number of lines and at most the drawn maximum of them change, each only by its first "->" becoming "--" |
| ErrorInjection.MissingBraceMeaning | training/error_injection.py:56-63 | a text ending, before whitespace, in '}' loses that '}' and the whitespace around it, so one '}' fewer and as many '{'; any other text is unchanged; the result is a prefix of the input |
| ErrorInjection.FixBracesRepairsMissingBrace | training/error_injection.py:56-63 | in a balanced text with braces, the brace the error takes away is restored by the post-processor's brace fix on a line of its own |
| ErrorInjection.LabelAt | training/error_injection.py:72 | a `label="..."` match lies inside the text, and with its coin down the replacement is the matched text |
| ErrorInjection.EscapeMeaning | training/error_injection.py:66-72 | the escape error adds or loses no brace, and with every coin down it changes nothing |
| ErrorInjection.LabelAtMeaning | training/error_injection.py:72 | the escape error matches exactly at `label="` with a non-empty text and no quote before its closing quote; with the coin up the label gets `\l` before that quote, with the coin down it is kept |
| ErrorInjection.LabelStartsWithL | training/error_injection.py:72 | the escape error matches only where an 'l' stands |
| ErrorInjection.EscapeFixUndoesLabel | training/error_injection.py:72 | on every label the escape error can match, fix 2 of the post-processing matches the injected label whole and gives the original label back |
| ErrorInjection.EscapeInjectOnce | training/error_injection.py:66-72 | on a text with one label whose coin is up and no other 'l', the escape error puts `\l` before the label's quote and changes nothing else |
| ErrorInjection.EscapeInjectLabel | training/error_injection.py:66-72 | the same, with the text given as the parts around the label |
| ErrorInjection.EscapeInjectThenFix | training/error_injection.py:66-72 | on such a text, fix 2 of the post-processing undoes the escape error and gives the text back |
| ErrorInjection.ApplyError | training/error_injection.py:99-101 | applying one sampled error function gives that kind's error |
| ErrorInjection.InjectRandomErrors | training/error_injection.py:75-103 | a negative count makes the sample raise; otherwise the sampled errors are applied in sample order and their names recorded in that order |
| ErrorInjection.ApplyErrors | training/error_injection.py:96-103 | the loop applies the sampled errors in order and records their names |
| ErrorInjection.Names | training/error_injection.py:85-90 | one recorded name per sampled error, in order |
| ErrorInjection.KindNameInjective | training/error_injection.py:85-90 | different error kinds carry different names |
| ErrorInjection.NamesDistinct | training/error_injection.py:93-101 | the sample having no repeats, no name is recorded twice |
| ErrorInjection.CorrectionPrompt | training/error_injection.py:120-124 | the prompt opens with the fix request and the broken text, and is just that exactly when there is no description or it is empty |
| ErrorInjection.CreateErrorCorrectionPair | training/error_injection.py:106-135 | the pair built from the draws: the original text is the target, and the broken text with the names of its errors goes into the prompt |
| ErrorInjection.CorrectionPairOf | training/error_injection.py:106-135 | task type `ERROR_CORRECTION`, target the original text, the broken text the sampled errors applied in order, a prompt holding the broken text, one name per error |
| ErrorInjection.AugmentedStep | training/error_injection.py:153-174 | a round adds the variant of its pick, unless the pick's DOT text is empty |
| ErrorInjection.AugmentDatasetWithErrors | training/error_injection.py:138-180 | the loop runs `int(len * factor)` rounds, none when that is not positive, and yields the pairs of those rounds, each built with the source and licence rules of `MakeErrorPairFields` |
| ErrorInjection.MakeErrorPairFields | training/error_injection.py:165-172 | the pair of round i has id `error_correction_` and i in four digits, the original's DOT as its target, and is marked as compiled; its source is `synthetic_error_from_` followed by the original's source, `unknown` when that is absent and `None` when it is null; its licence is the original's, `synthetic-generated` when absent, and null exactly when the original's is null |
| ErrorInjection.AugmentedRounds | training/error_injection.py:153-174 | the pairs come from increasing rounds before the count, each carrying its round's id, a non-empty target and the compiled mark |
| ErrorInjection.AugmentedMeaning | training/error_injection.py:138-180 | at most one pair per round; every pair has a non-empty target, is marked as compiled, and no two pairs share an id |
| ErrorInjection.ErrorPairIdInjective | training/error_injection.py:168 | different rounds give different ids |
| Eval.DepthStep | training/eval.py:87-91 | one more character changes the brace count by +1 for '{', -1 for '}', and 0 otherwise |
| Eval.FirstBalanced | training/eval.py:87-93 | the first end at which the text from the '{' is balanced, with no balanced end before it, or -1 |
| Eval.DepthStaysPositive | training/eval.py:87-93 | from a '{' the count stays above zero until it first returns to zero |
| Eval.StripKeepsTail | training/eval.py:93 | stripping a text ending in '}' keeps everything from its first '{' on |
| Eval.BalancedBracesNeedsBrace | training/eval.py:83-85 | a text without '{' yields nothing |
| Eval.BalancedBracesFound | training/eval.py:80-95 | a result is the stripped text through the '}' that balances the first '{', ending with that whole block |
| Eval.BalancedBracesUnclosed | training/eval.py:87-95 | nothing comes back only when the first '{' is never balanced: every later count stays above zero |
| Eval.BlockCloses | training/eval.py:87-93 | the first balanced point after a '{' closes its block with a '}', and stripping keeps that block whole |
| Eval.ExtractBalancedBraces | training/eval.py:80-95 | the brace-counting loop returns the balanced block of the first '{', or nothing |
| Eval.AfterLast | training/eval.py:52 | the text after the last occurrence of the separator is a suffix of the text and holds no separator |
| Eval.AfterLastIsLastPart | training/eval.py:52 | that text is the last part `split` gives |
| Eval.StripMarkers | training/eval.py:48-52 | the text left after handling the markers is a suffix of the answer |
| Eval.StripMarkersRemovesThem | training/eval.py:48-52 | once the markers were handled in turn, none of them occurs in the text |
| Eval.StripMarkersInOrder | training/eval.py:49-52 | the marker loop computes the text left after the markers in order |
| Eval.CleanResponse | training/eval.py:41-52 | the cleaned answer is what follows the last occurrence of each of the four chat markers in turn, and holds none of them |
| Eval.FirstFenced | training/eval.py:55-64 | nothing exactly when none of the fenced patterns from the given one on matches |
| Eval.FindWord | training/eval.py:68-71 | the first position holding the keyword as a whole word, ignoring ASCII case, or -1 when there is none |
| Eval.KeywordGraphMeaning | training/eval.py:68-75 | a text without '{' yields no keyword graph, and a keyword graph ends with the '}' that closes it |
| Eval.ExtractDotMeaning | training/eval.py:38-77 | the answer is read with none of the markers left in it, and then by the choice among fenced blocks and keyword graphs |
| Eval.DotFromCleanedMeaning | training/eval.py:54-77 | a `dot` fence wins; otherwise the first fenced pattern that matches; without a fence a result ends with its closing '}'; with neither a fence nor a '{' there is nothing |
| Eval.FirstFenceWins | training/eval.py:61-64 | the first pattern, when it matches, is the one used |
| FsmExtractor.PrepareContextBounds | parsers/fsm_extractor/extractor.py:103-122 | a source that fits is kept whole; a longer one becomes a prefix of the source plus the ellipsis line, at most the limit less 4 characters, cut at a newline when one falls beyond 80% of the limit |
| FsmExtractor.PairId | parsers/fsm_extractor/extractor.py:124-139 | the id is "logic_stream_" and 8 lower-case hex digits |
| FsmExtractor.MatchStepMeaning | parsers/fsm_extractor/extractor.py:67-101 | a match yields a pair exactly when it has graph support, comes from one of the two libraries, its sandbox run printed non-empty DOT and the validator returned; the validator's missing binary raises; the pair carries that DOT unchanged, the validator's status (failed_compiler exactly for invalid DOT), the location id, CODE_TO_DOT and no prompt |
| FsmExtractor.Collect | parsers/fsm_extractor/extractor.py:67-101 | the generator yields at most one pair per match |
| FsmExtractor.CollectedPairs | parsers/fsm_extractor/extractor.py:67-101 | every pair yielded comes from a match with graph support, is a CODE_TO_DOT pair with no prompt, non-empty DOT, a schema status and the given licence |
| FsmExtractor.Extractor.constructor | parsers/fsm_extractor/extractor.py:38-48 | the given sandbox, or a fresh one with a 30-second timeout, and the context limit |
| FsmExtractor.Extractor.RunSandbox | parsers/fsm_extractor/extractor.py:72-81 | the wrapper code of the match's library is run, and its DOT kept only when the run succeeded with non-empty output |
| FsmExtractor.Extractor.ProcessMatch | parsers/fsm_extractor/extractor.py:67-101 | the loop body's outcome for one match: skipped, a pair, or the raise of a missing Graphviz binary |
| FsmExtractor.Extractor.ExtractFromFile | parsers/fsm_extractor/extractor.py:50-101 | an unreadable file raises at once, an undecodable or unparsable one yields nothing, a parsed one yields its matches' pairs in order up to the first raise |
| FsmExtractor.Extractor.CollectPairs | parsers/fsm_extractor/extractor.py:67-101 | the loop over the matches yields the generator's pairs, in order, and stops at the first raise |
| FsmMain.CandidatesMeaning | parsers/fsm_extractor/__main__.py:18-37 | a listed file is a candidate exactly when no part of its path is an excluded directory and its readable text has an FSM import |
| FsmMain.ScanDirectory | parsers/fsm_extractor/__main__.py:18-37 | the scan keeps the candidate files in listing order |
| FsmMain.CountPassed | parsers/fsm_extractor/__main__.py:97-100 | the count of compiled pairs never exceeds the number of pairs |
| FsmMain.ProcessDirectory | parsers/fsm_extractor/__main__.py:40-114 | every candidate file is counted, also one whose extraction raises; every yielded pair is counted as valid or invalid, the two adding up to the pairs extracted, and written outside a dry run, failed_compiler pairs included |
| FsmMain.ProcessFiles | parsers/fsm_extractor/__main__.py:83-112 | the loop over the files counts them and all pairs they yield, and writes those pairs outside a dry run |
| FsmMain.AllPairsStep | parsers/fsm_extractor/__main__.py:83-112 | one more file adds the pairs extracted from it |
| FsmMain.CountPairs | parsers/fsm_extractor/__main__.py:90-108 | the loop over one file's pairs counts each as extracted and as valid or invalid, and writes it outside a dry run |
| GraphTypes.AppendRequirements | generators/synthetic_graph_types.py:180-181 | the loop appends one requirement line per constraint, in table order |
| GraphTypes.GetPromptForType | generators/synthetic_graph_types.py:165-189 | a type missing from the table raises `ValueError` naming it, and only such a type does; otherwise the prompt is the header, the requirement lines and the closing instructions |
| GraphTypes.HeaderLeads | generators/synthetic_graph_types.py:172-178 | text after the header starts with the pattern line, followed by the type and description lines |
| GraphTypes.PromptShape | generators/synthetic_graph_types.py:165-189 | a prompt starts with the pattern line, then names the type and its description from the table, and ends with the closing instructions |
| GraphTypes.PromptOfShape | generators/synthetic_graph_types.py:172-187 | header, requirements and closing instructions, whatever the requirements, keep that shape |
| GraphTypes.TerminatedSnoc | generators/synthetic_graph_types.py:180-181 | one more line adds that line and its newline at the end |
| GraphTypes.TerminatedIsJoin | generators/synthetic_graph_types.py:180-181 | lines each ended by a newline are those lines joined by newlines, with an empty last part |
| GraphTypes.RequirementsTerminated | generators/synthetic_graph_types.py:180-181 | the requirement block is the requirement lines, each ended by a newline |
| GraphTypes.LineFree | generators/synthetic_graph_types.py:181 | a requirement line holds a newline only if its constraint's name or value does |
| GraphTypes.RequirementsOnePerLine | generators/synthetic_graph_types.py:180-181 | when no constraint name or value holds a newline, the requirement block splits into exactly one line per constraint, in table order |
| GraphTypes.RequirementsAsJoin | generators/synthetic_graph_types.py:180-181 | the requirement block is its lines joined by newlines with a final newline |
| GraphTypes.RequirementPartsFree | generators/synthetic_graph_types.py:180-181 | no requirement line holds a newline when no constraint does |
| NlExtractor.CleanDocstring | parsers/fsm_extractor/nl_extractor.py:31-42 | the docstring's lines that are neither blank nor made only of '-' and '=', stripped, joined by spaces, with whitespace runs then collapsed |
| NlExtractor.ExtractModuleDocstring | parsers/fsm_extractor/nl_extractor.py:12-49 | nothing exactly when the file cannot be read or parsed or its docstring is missing or empty; otherwise the cleaned docstring |
| NlExtractor.JoinedWordsNormal | parsers/fsm_extractor/nl_extractor.py:42 | words joined by single spaces hold no other whitespace, no space at either end and never two spaces in a row |
| NlExtractor.CollapseNormal | parsers/fsm_extractor/nl_extractor.py:42 | after cleanup the text is words separated by single spaces, with nothing at either end |
| NlExtractor.WordsOfJoinedWords | parsers/fsm_extractor/nl_extractor.py:42 | splitting words joined by single spaces gives the same words back |
| NlExtractor.CollapseIdempotent | parsers/fsm_extractor/nl_extractor.py:42 | cleaning an already cleaned text changes nothing |
| NlExtractor.OnlySeparatorsCleanToEmpty | parsers/fsm_extractor/nl_extractor.py:34-42 | a docstring made only of blank and separator lines cleans up to the empty string |
| NlExtractor.CollectStates | parsers/fsm_extractor/nl_extractor.py:93-105 | the walk collects the states of every class body, in walk order |
| NlExtractor.AppendBodyStates | parsers/fsm_extractor/nl_extractor.py:96-105 | the loop over a class body appends the states its assignments declare, in order |
| NlExtractor.AppendTargetStates | parsers/fsm_extractor/nl_extractor.py:99-105 | the loop over an assignment's targets appends each plain name when the value is a call of the bare name `State` |
| NlExtractor.TreeStatesMeaning | parsers/fsm_extractor/nl_extractor.py:93-105 | a name is collected exactly when some statement of some class body declares it a state |
| NlExtractor.BodyStatesMeaning | parsers/fsm_extractor/nl_extractor.py:96-105 | a name is collected from a body exactly when one of its statements declares it a state |
| NlExtractor.TargetNamesMeaning | parsers/fsm_extractor/nl_extractor.py:99-101 | the names taken from the targets are exactly the plain-name targets |
| NlExtractor.StateListNamesAll | parsers/fsm_extractor/nl_extractor.py:108 | every state appears in the state list |
| NlExtractor.JoinOffset | parsers/fsm_extractor/nl_extractor.py:108 | each part appears in the joined text at some position |
| NlExtractor.GenerateNlDescription | parsers/fsm_extractor/nl_extractor.py:75-117 | the generic sentence when the source does not parse or declares no state; otherwise the sentence for the states, with the class name when a non-empty one is given |
| NlExtractor.DescribeMeaning | parsers/fsm_extractor/nl_extractor.py:107-114 | the sentence begins "Create a state machine called " exactly when there are states and a non-empty class name, and always ends with a full stop |
| NlExtractor.DescribeNamesStates | parsers/fsm_extractor/nl_extractor.py:107-112 | every state is named in the sentence |
| Postprocess.RunEnd | training/postprocess_dot.py:46 | the end of the run of matching characters starting at the position: every character before it matches, the one at it does not |
| Postprocess.SpaceEnd | training/postprocess_dot.py:35 | the end of the whitespace run starting at the position |
| Postprocess.CharEnd | training/postprocess_dot.py:35 | the first position from the start holding the character, or the text's length, with no earlier one |
| Postprocess.BacktickAt | training/postprocess_dot.py:35 | a match of ``(digraph\|graph)\s+`name` `` lies inside the text and its replacement moves no brace |
| Postprocess.GraphKeyword | training/postprocess_dot.py:35 | a `digraph` or `graph` found at the position lies inside the text |
| Postprocess.EscapeEnd | training/postprocess_dot.py:40 | the first `\l`, followed by whitespace and a quote, with no quote before it in the label, or -1 |
| Postprocess.EscapeAt | training/postprocess_dot.py:40 | a match of fix 2 lies inside the text and its replacement moves no brace |
| Postprocess.EdgeWordsAt | training/postprocess_dot.py:46 | a match of `(\w+)\s+--\s+(\w+)` lies inside the text, moves no brace, and occurs only where the text has "--" |
| Postprocess.QuotedEnd | training/postprocess_dot.py:47 | a `"[\w\s]+"` match is a quote, at least one word or space character, and a closing quote |
| Postprocess.EdgeQuotedAt | training/postprocess_dot.py:47 | a match of the quoted-names edge pattern lies inside the text, moves no brace, and occurs only where the text has "--" |
| Postprocess.SpaceHasNoBraces | training/postprocess_dot.py:35 | whitespace holds no brace |
| Postprocess.FixEdges | training/postprocess_dot.py:42-47 | a text whose stripped form does not start with "digraph" is unchanged |
| Postprocess.FixCommonSyntaxErrors | training/postprocess_dot.py:28-29 | an empty text comes back unchanged |
| Postprocess.CloseTableAt | training/postprocess_dot.py:95 | a match of `(\s+>])` lies inside the text; its replacement moves no brace and is 8 characters longer |
| Postprocess.FixHtmlLabelErrors | training/postprocess_dot.py:82-83 | an empty text, or one that mentions no table in any case, is unchanged |
| Postprocess.PostprocessDot | training/postprocess_dot.py:109-110 | an empty text comes back unchanged |
| Postprocess.CountIsOccurrences | training/postprocess_dot.py:50-52 | counting a one-character text counts that character's occurrences |
| Postprocess.SubFromKeeps | training/postprocess_dot.py:35-47 | a substitution whose matches all keep their braces keeps the brace counts of the whole text |
| Postprocess.RewritesKeepBraces | training/postprocess_dot.py:33-47 | fixes 1 to 3 keep the number of '{' and of '}' |
| Postprocess.FixBracesMeaning | training/postprocess_dot.py:49-55 | fix 4 leaves a text without '{', or with no more '{' than '}', alone; otherwise it appends a newline and exactly the missing '}', after which the counts are equal |
| Postprocess.FixBracesBalances | training/postprocess_dot.py:49-55 | after fix 4 a text never has more '{' than '}' |
| Postprocess.RStripDropsNoBraces | training/postprocess_dot.py:62-63 | right-stripping drops only whitespace, which holds no brace |
| Postprocess.ClosingQuoteKeeps | training/postprocess_dot.py:63 | putting a quote and a newline before the final '}' and dropping whitespace after it keeps the braces |
| Postprocess.FixQuotesMeaning | training/postprocess_dot.py:57-63 | fix 5 acts only on an odd count of unescaped quotes and a text whose right-stripped form ends with '}', turning that '}' into a quote, a newline and '}'; it never changes the brace counts |
| Postprocess.FixCommonBalancesBraces | training/postprocess_dot.py:12-65 | after the five fixes a text never has more '{' than '}' |
| Postprocess.SubFromNoMatch | training/postprocess_dot.py:46-47 | a substitution that matches nowhere copies the text |
| Postprocess.FixEdgesMeaning | training/postprocess_dot.py:42-47 | fix 3 changes nothing in a text that is not a digraph or has no "--" |
| Postprocess.SubFromGrowth | training/postprocess_dot.py:95 | a substitution whose matches all grow by n characters grows the text by n per replacement |
| Postprocess.ReplacementsBounded | training/postprocess_dot.py:95 | a substitution with a count makes no more replacements than the count |
| Postprocess.FixHtmlLength | training/postprocess_dot.py:68-97 | the HTML fix inserts `</table>` at most once per table it counts as unclosed, and changes the length by nothing else |
| Postprocess.FixHtmlBraces | training/postprocess_dot.py:68-97 | the HTML fix moves no brace |
| Postprocess.PostprocessMeaning | training/postprocess_dot.py:100-117 | post-processing is the HTML fix after the syntax fixes, also for the empty text, and its result never has more '{' than '}' |
| Postprocess.BacktickAtMeaning | training/postprocess_dot.py:35 | fix 1 matches exactly where `digraph` or `graph`, whitespace and a name in backticks stand, and the replacement is the keyword, one space and the name in double quotes |
| Postprocess.EscapeAtMeaning | training/postprocess_dot.py:40 | fix 2 matches exactly at a `label="` whose text, with no quote in it, ends in `\l` and whitespace before its quote; the replacement is the label text without them, then the quote |
| Postprocess.SubFromHit | training/postprocess_dot.py:35-47 | where a pattern matches, `re.sub` puts in the replacement and searches on from the end of the match |
| Postprocess.FixesWithoutMarks | training/postprocess_dot.py:35-40 | a text without a backtick is left alone by fix 1, and one without `\l` by fix 2 |
| PostprocessCases.EscapesEdgesKeep | training/postprocess_dot.py:37-47 | a text without a backslash and without "--" comes through fixes 2 and 3 unchanged |
| PostprocessCases.OneBlockKeep | training/postprocess_dot.py:49-55 | a text with one '{' and one '}' comes through fix 4 unchanged |
| PostprocessCases.OpenBlockCloses | training/postprocess_dot.py:49-55 | a text with one '{' and no '}' gets a newline and one '}' appended by fix 4 |
| PostprocessCases.UnquotedKeep | training/postprocess_dot.py:57-83 | a text with no quote, backslash or '<' comes through fix 5 and the HTML fix unchanged |
| PostprocessCases.QuotedKeep | training/postprocess_dot.py:57-83 | a text with exactly two quotes and no backslash or '<' comes through fix 5 and the HTML fix unchanged |
| PostprocessCases.EvenQuotes | training/postprocess_dot.py:59 | two quotes and no backslash count as an even number of unescaped quotes |
| PostprocessCases.BacktickNameQuoted | training/postprocess_dot.py:35 | on `digraph` followed by a name in backticks, fix 1 puts the name in double quotes and copies the rest |
| PostprocessCases.EdgeWordsOnce | training/postprocess_dot.py:46 | on a text whose only "--" is one `x -- y` edge between one-letter nodes, the word-edge substitution turns it into `x -> y` and copies the rest |
| PostprocessCases.EscapeLabelOnce | training/postprocess_dot.py:40 | on a text whose one label ends in `\l` before its quote, with no other 'l' outside it, fix 2 drops the `\l` and copies the rest |
| PostprocessCases.BacktickReplacementCase | training/postprocess_dot.py:124-129 | the self-test's backtick example post-processes to its expected text, exactly and not only after stripping |
| PostprocessCases.EdgeOperatorCase | training/postprocess_dot.py:131-136 | the self-test's `--` example post-processes to the digraph with `->` |
| PostprocessCases.MissingBraceCase | training/postprocess_dot.py:138-143 | the self-test's unclosed example gets a newline and the missing '}' |
| PostprocessCases.EscapeSequenceCase | training/postprocess_dot.py:145-150 | the self-test's `\l` example post-processes to the label without it |
| Prompts.TemplateCases | training/improved_prompts.py:76-82 | "simple" and "fsm" select their own templates; every other name, "improved" included, selects the improved template |
| Prompts.TemplatesDiffer | training/improved_prompts.py:76-82 | the template a prompt was built from can be read off its start: no template is a prefix of a prompt built from another |
| Prompts.AroundBlankLine | training/improved_prompts.py:83 | a text, a blank line and a description: it starts with the text, ends with the blank line and description, and gives the description back once the text and blank line are dropped |
| Prompts.GetImprovedPromptMeaning | training/improved_prompts.py:66-83 | the prompt starts with the selected template and ends with a blank line and the description; the template's name (an unknown name reads as "improved") and the description can both be read back from it |
| Prompts.UnknownTypeFallsBack | training/improved_prompts.py:82 | an unknown prompt type gives the same prompt as "improved" |
| Prompts.GetFewShotPromptMeaning | training/improved_prompts.py:122-131 | the prompt starts with the examples and a blank line, ends with the description, and gives the description back |
| PromptsV2.TaskOfName | training/improved_prompts_v2.py:75-81 | a task-type string other than the two special names reads as natural-language; the special names read as their own type |
| PromptsV2.TaskOfNameInvertsTaskName | training/improved_prompts_v2.py:75-81 | reading a task type's own name gives that type back |
| PromptsV2.FormatPromptShape | training/improved_prompts_v2.py:63-81 | a prompt starts with the instruction its task type selects and ends with the whole request |
| PromptsV2.TaskOfPrompt | training/improved_prompts_v2.py:75-81 | a prompt read as code or error correction starts with that task's instruction |
| PromptsV2.InstructionsDiffer | training/improved_prompts_v2.py:18-81 | no instruction is a prefix of a prompt built from another, so the task type reads back from the prompt |
| PromptsV2.FormatPromptRoundTrip | training/improved_prompts_v2.py:63-81 | a formatted prompt gives back both the task type it was read as and the request it was built from |
| PromptsV2.FormatPromptInjective | training/improved_prompts_v2.py:63-81 | two requests formatted for the same task type give the same prompt only when they are equal |
| Templates.Format | generators/synthetic_generator/templates.py:72-75 | formatting fails exactly when some placeholder of the template has no value |
| Templates.FormatPrefix | generators/synthetic_generator/templates.py:72-75 | formatting one more piece appends that piece's literal text or its placeholder's value |
| Templates.FormatTwoFields | generators/synthetic_generator/templates.py:72-75 | a template of two placeholders between three texts formats to the texts with the two values in between |
| Templates.GetPromptShape | generators/synthetic_generator/templates.py:63-75 | the prompt is the system text with the few-shot example and the description in the two placeholders' places |
| Templates.GetPromptMeaning | generators/synthetic_generator/templates.py:63-75 | the prompt holds the description whole, at a fixed offset |
| Templates.GetPromptInjective | generators/synthetic_generator/templates.py:63-75 | different descriptions give different prompts |
| Templates.GetTestPromptsMeaning | generators/synthetic_generator/templates.py:103-112 | the test prompts are a prefix of the list: the first `count` (at most ten) for a non-negative count, and all but the last `-count` for a negative one |
| Regenerate.ClassifyTaskType | training/regenerate_training_data.py:71-90 | a pair is an error-correction pair exactly when its source starts with `synthetic_error_from_`; otherwise it is a code-to-DOT pair exactly when its source is one of the three code sources or its input holds a code fragment; the rest is natural language |
| Regenerate.UpdateOne | training/regenerate_training_data.py:103-108 | a pair is dropped exactly when its input is empty or only whitespace |
| Regenerate.Bump | training/regenerate_training_data.py:100-101 | counting one more pair raises the total by one |
| Regenerate.UpdatePairPrompts | training/regenerate_training_data.py:93-127 | the loop returns the non-blank pairs rebuilt in input order and the per-type counts of every pair |
| Regenerate.UpdateStep | training/regenerate_training_data.py:99-121 | one step counts the next pair under its type and appends it rebuilt unless its input is blank |
| Regenerate.StatsCountEveryPair | training/regenerate_training_data.py:97-101 | the counts add up to the number of pairs, blank ones included |
| Regenerate.BlankCount | training/regenerate_training_data.py:106-108 | the number of blank pairs is at most the number of pairs |
| Regenerate.UpdatedDropsBlank | training/regenerate_training_data.py:106-108 | exactly the blank pairs are dropped: the output is as long as the input minus the blank pairs |
| Regenerate.RebuildReadable | training/regenerate_training_data.py:110-119 | the task type of a rebuilt pair can be read back from its prompt |
| Regenerate.UpdatedMeaning | training/regenerate_training_data.py:110-121 | every output pair is some non-blank input pair with its input formatted for its class and its DOT and source carried over, and its type can be read back from its prompt |
| Regenerate.UpdatedSource | training/regenerate_training_data.py:110-121 | every output pair is the rebuild of a non-blank input pair at some index |
| Regenerate.ErrorSourceFirst | training/regenerate_training_data.py:76-78 | an error-derived source makes an error-correction pair whatever the input looks like |
| Regenerate.CodeInputIsCode | training/regenerate_training_data.py:84-87 | an input holding `def ` makes a pair from a non-error source a code-to-DOT pair |
| RepositoryCurator.AnalyzeRepositoryAsWritten | parsers/repository_curator.py:26-43 | as written, the analysis fails exactly when a `license` entry is present but is not a mapping |
| RepositoryCurator.Summary | parsers/repository_curator.py:36-43 | the summary has exactly the six reviewed keys, with the given licence key |
| RepositoryCurator.AnalyzeRepository | parsers/repository_curator.py:26-43 | the corrected analysis fails only on a licence that is neither a mapping nor null; it returns the six reviewed keys, with licence key "unknown" when the licence is absent or null |
| RepositoryCurator.NullLicenseRaises | parsers/repository_curator.py:39 | a record whose licence is null fails as written, and the corrected analysis gives it licence "unknown" |
| RepositoryCurator.AnalyzeRepositoryAgrees | parsers/repository_curator.py:36-43 | the corrected analysis agrees with the one as written wherever that one succeeds |
| RepositoryCurator.AnalyzeEmptyRecord | parsers/repository_curator.py:36-43 | an empty record is summarised with every documented default |
| RepositoryCurator.LicenseKey | parsers/repository_curator.py:55 | a missing licence reads as "unknown", and reading fails exactly when the licence is present but not a string |
| RepositoryCurator.FilterByLicense | parsers/repository_curator.py:46-59 | the loop returns the filter's result: the approved repositories in order, or the error of the first non-string licence |
| RepositoryCurator.FilteredErrorSticks | parsers/repository_curator.py:54-57 | once a licence has failed, the later repositories do not change the result |
| RepositoryCurator.FilteredMeaning | parsers/repository_curator.py:46-59 | the filter fails exactly when some licence is not a string, and otherwise keeps exactly the approved repositories in their original order |
| RepositoryCurator.FilteredKeepsApproved | parsers/repository_curator.py:48-57 | a repository is kept exactly when it is in the input and its lower-cased licence is one of the eight approved keys |
| RepositoryCurator.LicenseMatchIgnoresCase | parsers/repository_curator.py:55-56 | "MIT" is approved because matching is case-insensitive, and a repository without a licence is dropped |
| Sandbox.WrapperEmbedsSource | parsers/fsm_extractor/sandbox.py:53-87 | the candidate source sits in the wrapper code's `try:` block: every non-blank line appears in order, indented four spaces, and the handler that reports failures closes the block |
| Sandbox.WrapperPrintsBetweenDelimiters | parsers/fsm_extractor/sandbox.py:71-73 | the wrapper code for either library prints the DOT text alone between a start-delimiter line and an end-delimiter line |
| Sandbox.FirstIndex | parsers/fsm_extractor/sandbox.py:178-183 | the index found holds the line sought, and no earlier line does |
| Sandbox.FirstIndexAt | parsers/fsm_extractor/sandbox.py:178-183 | an index holding the line sought with no earlier occurrence is the first index |
| Lists.LastIndex | parsers/fsm_extractor/sandbox.py:178-180 | the index found holds the element sought, and no later element does; the same search is `rfind` of one character |
| Sandbox.DelimitedDotMeaning | parsers/fsm_extractor/sandbox.py:173-191 | stdout is delimited exactly when an end line exists and a start line comes before the first one; the DOT text is then the lines strictly between the last such start line and that end line |
| Sandbox.MarkedLines | parsers/fsm_extractor/sandbox.py:196-197 | the marker mask has one entry per stderr line |
| Sandbox.FirstTrue | parsers/fsm_extractor/sandbox.py:196-199 | the index found is a marked line and no earlier line is marked |
| Sandbox.ExecutionResultShape | parsers/fsm_extractor/sandbox.py:149-222 | a success carries DOT text and no message, and a failure carries a message and no DOT; only a completed run with delimited stdout succeeds, whatever its exit code; a timeout and a launch failure give their fixed messages |
| Sandbox.FsmSandbox.constructor | parsers/fsm_extractor/sandbox.py:36-42 | the sandbox keeps the timeout it is given |
| Sandbox.FsmSandbox.ExtractDotFromStatemachine | parsers/fsm_extractor/sandbox.py:44-89 | the result is that of running the statemachine wrapper code around the source |
| Sandbox.FsmSandbox.ExtractDotFromTransitions | parsers/fsm_extractor/sandbox.py:91-136 | the result is that of running the transitions wrapper code around the source |
| Sandbox.FsmSandbox.ExecuteCode | parsers/fsm_extractor/sandbox.py:138-222 | the result is the one the run's outcome determines |
| Sandbox.FsmSandbox.ScanDelimiters | parsers/fsm_extractor/sandbox.py:175-183 | the loop finds the first end line and the line after the last start line before it, and the start never comes after the end |
| Sandbox.FsmSandbox.ErrorMessage | parsers/fsm_extractor/sandbox.py:193-201 | the message is the first marked stderr line with the markers removed and stripped, else the first 200 characters of stderr, else "Unknown error" |
| Sandbox.FsmSandbox.FirstMarkedLine | parsers/fsm_extractor/sandbox.py:196-199 | the loop stops at the first stderr line carrying the marker |
| SyntheticValidator.CreateTrainingPair | generators/synthetic_generator/validator.py:68-103 | the pair keeps prompt and DOT, has no context, the fixed licence and task type, the status "passed_compiler" exactly when validation passed (else "failed_compiler"), and an 18-character id "synthetic_" followed by the first eight hex digits of the digest of prompt and DOT |
| SyntheticValidator.SourceNamesProviderAndModel | generators/synthetic_generator/validator.py:91-92 | the source starts with "synthetic-" and the provider and ends with "-" and the model |
| SyntheticValidator.IdIgnoresAttribution | generators/synthetic_generator/validator.py:87-89 | the id depends only on prompt and DOT, not on provider, model or verdict |
| SyntheticValidator.CalculateCost | generators/synthetic_generator/validator.py:121-163 | the cost is zero for the local provider, for missing or empty token counts and for unpriced models, and never negative for non-negative counts |
| SyntheticValidator.CostMonotone | generators/synthetic_generator/validator.py:154-161 | more tokens of either kind never cost less |

## Left out

- Running Graphviz. `dot` runs are not modelled; the validator receives their outcome (exit code, stderr, timeout, binary present) as a `Toolchain` value. The same applies to `_get_compiler_version` and the `dot` calls in generators/synthetic_generator/validator.py:32-65 (`validate_dot_syntax`) and in training/eval.py (`is_valid_dot_syntax`).
- The parallel branch of `validate_batch` (thread pool) and `progress_callback`. Only the sequential path is modelled.
- The cache hit rate as a float. The memo itself is modelled as an LRU map of at most 1000 entries; `functools` internals are not.
- SHA-256 (FIPS 180-4, section 6.2) and MD5 (RFC 1321) are not computed. They are parameters: functions that return lower-case hex digests of the right length.
- `datetime.fromisoformat` acceptance is a parameter. The clock (`utcnow`, `time.time`) is an input string or number.
- `json.dumps` and `json.loads`. A record is modelled as its decoded dictionary and a file line as its decoded value. A `pairs.json` that does not decode is not modelled.
- File and directory I/O, logging, `print`, argument parsing and every `main`. Files are sequences of decoded lines; directory listings are sequences of paths in walk order.
- The FSM child process. Launching it, its temporary directory, its environment and the enforcement of its timeout are not modelled; the run is a function from the wrapper code to its outcome. `textwrap.dedent` is modelled only as far as the wrapper code needs (lines of spaces and tabs become empty).
- Python's `ast` parser and `ast.get_docstring` cleaning. Files arrive as pre-parsed nodes in visit order, and modules as their docstring.
- `extract_class_docstring` (parsers/fsm_extractor/nl_extractor.py:52-72) is not modelled.
- The regular-expression engine. Each regular expression the code uses is written out as a left-to-right scan. `\w` is an ASCII letter, digit or `_`, and case-insensitive matching folds ASCII letters only.
- `str.lower()` folds ASCII letters only.
- Fetching pages, retries and sleeps, BeautifulSoup parsing, the `scrape()` loops and the TUI. A page arrives as its links, or as its title, description, `<pre>` texts and the texts of its `<code>` elements outside every `<pre>`.
- `search_github_repos` and `create_curated_list` (parsers/repository_curator.py). One returns a fixed empty list and prints; the other only prints.
- Language-model clients, model loading and training scripts.
- Evaluation metrics (`evaluate_generation`, `compute_metrics` in training/eval.py). Only DOT extraction from an answer is modelled.
- `ScraperMetrics.summary()` and `to_json()` formatting.
- The tokenizer chat-template branch of `format_instruction`. Only the fallback format is modelled; a tokenizer is an opaque dependency.
- The average lengths in `get_statistics` (floats). The pair count and the per-source counts are modelled.
- Dataset.GetStatistics: Python counts the sources `1` and `true` (and `0` and `false`) under one dictionary key, because they compare equal; the model counts them apart.
- Dataset.GetStatistics: the `TypeError` raised by `len()` names the value's type (`int`, `float` or `bool`) in Python; the model gives one message for all of them.
- Dataset.CreateDataset: a `TypeError` carries the name of the unhashable type (`list` or `dict`) in Python; the model gives one message for both.
- Dataset.CreateDataset: `Dataset.from_list` of the Hugging Face `datasets` library is taken as the identity on the formatted examples. The library's own checks are not modelled: it raises when one column mixes JSON types, such as a text input in one example and a number in another.
- Floating point. The split fraction is a rational `num/den`, attribute confidences are whole hundredths, and the token cost is exact real arithmetic, without IEEE rounding.
- Random draws (`randint`, `random()`, `sample`, `choice`). They are explicit parameters, so every possible draw is covered.
- Schema.FromDict: a non-text value under a text key is rejected when the record is built. Python stores the value as given.
- Regenerate.ClassifyTaskType: a JSON `null` `source` or `output_dot` is read as absent. Python raises on a null source and carries a null DOT over as `None`.
- Detector.HasFsmImports: the contract states only that an unreadable file fails the pre-filter. Which texts pass is the body's three substring tests.
- ErrorInjection.AugmentDatasetWithErrors: an original whose `source` or `license` is a number, list or other non-text JSON value is not modelled. The model covers a missing, null or text value.
- ErrorInjection.EscapeInjectThenFix: the round trip over a whole text is proved for a text with one label and no other 'l'. Other texts are covered label by label by ErrorInjection.EscapeFixUndoesLabel.
- PostprocessCases.EdgeWordsOnce: the word-edge substitution is stated on a whole text only for one edge between one-letter nodes. Its match at any position is stated by Postprocess.EdgeWordsAt.
- PostprocessCases.EscapeLabelOnce: fix 2 is stated on a whole text only for one label and no other 'l'. Its match at any position is stated by Postprocess.EscapeAtMeaning.
- Python's integer width is unbounded, so integers are `int` and `nat` with no wrap-around.

## Findings

| source | as written | input that shows it | evidently intended | confidence | as-written member | corrected member |
|---|---|---|---|---|---|---|
| scrapers/attribute_docs.py:365-376 | `DataRecord(...)` is passed `instruction_confidence=`, a field the record does not declare, so construction raises `TypeError` | any example that compiles: it is counted as passed, then nothing is written or counted as written | build the record from its declared fields; the confidence is not part of the record | high, not executed | AttributeDocs.AttributeDocsScraper.ProcessExampleAsWritten, AttributeDocs.RecordArgumentsRejected | AttributeDocs.AttributeDocsScraper.ProcessExample |
| common/id_generator.py:48-50 | the hash is taken after the first '-' | `generate_id(d, "graphviz-gallery")` extracts to `"gallery-"` followed by the hash | the documented `{prefix}-{hash}` format: the 16 hex digits after the prefix, so the round trip holds for every prefix | medium, not executed | IdGenerator.ExtractKeepsPrefixTail | IdGenerator.ExtractHashAfterLastDash, IdGenerator.ExtractAfterLastDashInvertsGenerate |
| parsers/repository_curator.py:39 | `repo_data.get("license", {}).get("key", ...)` calls `.get` on whatever the entry holds | a record whose `license` is `null` (the search API's value for a repository without a licence) raises `AttributeError` | a null licence reads like a missing one, with key `"unknown"` | medium, not executed | RepositoryCurator.AnalyzeRepositoryAsWritten, RepositoryCurator.NullLicenseRaises | RepositoryCurator.AnalyzeRepository |
