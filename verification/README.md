# Corpus ingestion pipeline — a Dafny model

This project models the offline pipeline that builds the debate corpus. It has three Python scripts under
`backend/app/scripts/`:

- **`ingest_coreapi.py`** searches the CORE API for every search keyword of five academic fields. It then:
  - classifies each result with a keyword-weighted scorer;
  - gives each result a duplicate-detection id (the CORE id, else the DOI, else an MD5 of the normalised title and first author);
  - keeps the accepted results, up to `target_count // len(keywords)` per keyword;
  - reports how evenly the keywords contributed.
- **`process_sources.py`** builds a `processedText` for every collected source from its abstract and full text. It then:
  - asks a language model for a JSON summary, digging the object out of a fenced reply when needed, and validates it against a strict schema;
  - shapes the output record;
  - writes the results in batch files of 498 with a checkpoint of processed ids after each batch.
- **`pinecone_upload.py`** infers the embedding dimension and checks every record against it. It turns each record's fields into the metadata value types the vector store allows, then upserts (id, vector, metadata) triples in contiguous batches.

Everything is modelled with immutable values and pure functions, except the loops. Those are methods whose invariants carry the proofs:
- the checkpoint loop;
- the collection loops over fields, keywords, pages and results.

A JSON value is the `Json` datatype, and a Python dict with string keys is a `Record` (`map<string, Json>`). Python exceptions become the `Err` side of `Result`, naming the exception class that would be raised.

Everything these scripts cannot see is a parameter of the model:
- HTTP responses;
- model replies;
- `json.loads` and `json.dumps`;
- MD5;
- `str()` of a list or dict;
- the clock.

Modules, in dependency order:

| module | file | what it holds |
|---|---|---|
| `Wrappers` | wrappers.dfy | `Option`, `Result` and the exception kinds |
| `Text` | text.dfy | `lower`, `strip`, `find`, `rfind`, `join` and `str(int)` |
| `JsonValue` | json.dfy | JSON values, truthiness, `get`, `or` and `str()` |
| `Seqs` | seqs.dfy | duplicates, occurrence counts and flattening |
| `JsonSpan` | json_span.dfy | `_extract_json_substring` |
| `Preprocess` | preprocess.dfy | `preprocess_source_text` |
| `SummaryRecord` | summary_record.dfy | `call_gemini_with_schema` (its retry and validation logic) and `process_source` |
| `CheckpointLoop` | checkpoint_loop.dfy | the batch and checkpoint loop of `process_sources.main` |
| `Tally` | tally.dfy | insertion-ordered counters: `defaultdict(int)`, and `max` over its items |
| `FieldDetection` | field_detection.dfy | `academic_fields` and `detect_field_from_content` |
| `PaperIdentity` | paper_identity.dfy | `create_paper_id` |
| `CollectedRecord` | collected_record.dfy | the `paper_data` record |
| `Collection` | collection.dfy | `collect_sources_for_field` and the field loop of `main` |
| `Distribution` | distribution.dfy | `analyze_keyword_distribution` |
| `Metadata` | sanitize.dfy | `sanitize_value`, `sanitize_metadata` and `build_metadata` |
| `VectorUpload` | vector_upload.dfy | `infer_embedding_dim`, the shape check, `upsert_batch` and the batch loop |

## Model

| member | source | states |
|---|---|---|
| Text.Lower | backend/app/scripts/ingest_coreapi.py:46 | lower-casing keeps the length and maps every character on its own (ASCII letters only) |
| Text.StripIgnoresPadding | backend/app/scripts/ingest_coreapi.py:112 | whitespace around a text never changes what `strip` returns |
| Text.StripPadded | backend/app/scripts/process_sources.py:173 | `strip` returns the text between the leading and trailing whitespace; its result neither starts nor ends with whitespace |
| Text.FindChar | backend/app/scripts/process_sources.py:152 | `find` returns the first index of the character, or -1 exactly when the character is absent |
| Text.RFindChar | backend/app/scripts/process_sources.py:153 | `rfind` returns the last index of the character, or -1 exactly when the character is absent |
| Text.JoinEndsWithLast | backend/app/scripts/process_sources.py:54 | the last `n` parts, joined by the separator, end the joined text |
| Text.NatToStringInjective | backend/app/scripts/pinecone_upload.py:164 | distinct positions print as distinct decimal numerals |
| JsonSpan.SpanOf | backend/app/scripts/process_sources.py:152-156 | raises `ValueError` exactly when no `{` comes before a `}`; otherwise returns the text from the first `{` to the last `}`, which starts with `{` and ends with `}` |
| JsonSpan.SpanOfOutermost | backend/app/scripts/process_sources.py:152-156 | the span sits in the cleaned reply with no `{` before it and no `}` after it |
| JsonSpan.BracePairFound | backend/app/scripts/process_sources.py:152-154 | the `first == -1 or last == -1 or last <= first` test fails exactly when the text holds a `{` before a `}` |
| JsonSpan.ExtractJsonSubstring | backend/app/scripts/process_sources.py:143-156 | raises `ValueError("No JSON object found in text")` when there is no span, else parses the span |
| JsonSpan.BareObjectSpan | backend/app/scripts/process_sources.py:143-156 | a reply that is one brace-delimited object is handed on unchanged |
| JsonSpan.FencedObjectSpan | backend/app/scripts/process_sources.py:144-151 | an object in a "```json" or "```" fence, with whitespace inside the fence, comes out as the bare object |
| Preprocess.ProcessedText | backend/app/scripts/process_sources.py:43-54 | raises exactly when the full text is used and `len` fails on it, or it is a dict longer than 3000 that cannot be sliced |
| Preprocess.ProcessedTextEmpty | backend/app/scripts/process_sources.py:41-54 | `processedText` is empty exactly when neither the abstract nor the full text part is built |
| Preprocess.AbstractComesFirst | backend/app/scripts/process_sources.py:43-54 | the text starts with `Abstract: ` and the abstract exactly when `hasAbstract` and `abstract` are both truthy |
| Preprocess.ShortFullTextKeptWhole | backend/app/scripts/process_sources.py:51-54 | a full text of at most 3000 characters ends the text whole, after `Full Text: ` |
| Preprocess.ProcessedTextLayout | backend/app/scripts/process_sources.py:41-54 | with a string full text, the text is the abstract part, `"\n\n"`, and the full-text part, which is `Full Text: ` and the text, or for more than 3000 characters its labelled first and last 1500 joined by `"\n\n"`; a part that is not built is left out together with its separator |
| Preprocess.LongFullTextWindows | backend/app/scripts/process_sources.py:48-54 | a longer full text ends the text as its first 1500 and last 1500 characters, which do not overlap |
| Preprocess.PreprocessSource | backend/app/scripts/process_sources.py:39-56 | the copy has the source's keys without `fullText` and with `processedText`; every other value is the source's |
| SummaryRecord.Validated | backend/app/scripts/process_sources.py:117 | a parsed reply passes exactly when it is an object with string `summary` and `fieldOfStudy`; otherwise `ValidationError`, and a parse error passes through |
| SummaryRecord.FencedReplyParsed | backend/app/scripts/process_sources.py:112-115 | a reply that `json.loads` rejects, but that only fences an object, is read as that object |
| SummaryRecord.CallWithSchema | backend/app/scripts/process_sources.py:84-141 | the result is the first of the three replies that parses and validates, with every earlier one failing; when none does, it is what the third attempt raised |
| SummaryRecord.FinalizeShape | backend/app/scripts/process_sources.py:178-185 | the output has the source's keys without `fullText`/`hasFullText`, plus `summary`, `fieldOfStudy`, `id` and `paper_id`; `id` and `paper_id` default to `""`, and every other value is the source's |
| SummaryRecord.Summarise | backend/app/scripts/process_sources.py:171-189 | None exactly when the call raised or the stripped summary is empty; otherwise a record of that shape with the stripped summary and field |
| SummaryRecord.ProcessSource | backend/app/scripts/process_sources.py:168-189 | raises exactly when preprocessing raises; any failure inside the `try` gives None |
| SummaryRecord.SummaryTrimmed | backend/app/scripts/process_sources.py:173-185 | a produced record's summary is non-empty and neither starts nor ends with whitespace |
| SummaryRecord.BlankSummaryDropped | backend/app/scripts/process_sources.py:173-176 | a validated reply whose summary is all whitespace gives None |
| CheckpointLoop.Step | backend/app/scripts/process_sources.py:248-256 | one iteration raises exactly when the id is unhashable, or is new and processing raises; otherwise the state only grows, by at most one result |
| CheckpointLoop.RunValid | backend/app/scripts/process_sources.py:248-256 | after any prefix of the sources, the state satisfies the following: the processed ids are the checkpointed ones plus one new, distinct id per result; each result is its source's summary; results are in source order |
| CheckpointLoop.RunCovers | backend/app/scripts/process_sources.py:253-256 | a source whose summary succeeds leaves its id in the processed set |
| CheckpointLoop.CheckpointedSkipped | backend/app/scripts/process_sources.py:243-251 | a source whose id was checkpointed before the run is never summarised |
| CheckpointLoop.SameIdSummarisedOnce | backend/app/scripts/process_sources.py:249-256 | two results never come from sources with the same id |
| CheckpointLoop.ProcessAll | backend/app/scripts/process_sources.py:243-274 | batches are non-empty, at most 498 long, all but the last exactly 498. On success their concatenation is every result in order, and checkpoint `k` holds the initial ids plus the ids of everything flushed up to batch `k`. On an exception at source `n`, the batches hold the results of the first `n` sources in order, all full, with fewer than 498 results left unflushed, and each checkpoint is correct for them |
| CheckpointLoop.Absorb | backend/app/scripts/process_sources.py:255-265 | adding a result and flushing at 498 keeps the loop invariant |
| CheckpointLoop.FlushRest | backend/app/scripts/process_sources.py:269-274 | the final partial batch is flushed with a last checkpoint, and nothing is lost |
| CheckpointLoop.RunStaysFailed | backend/app/scripts/process_sources.py:248-253 | an exception ends the run; no later source is processed |
| Tally.AddLookup | backend/app/scripts/ingest_coreapi.py:71 | `t[k] += n` raises `k`'s count by `n` and leaves every other count as it was |
| Tally.AddDistinct | backend/app/scripts/ingest_coreapi.py:71 | incrementing keeps the keys unique |
| Tally.LookupPositive | backend/app/scripts/ingest_coreapi.py:94 | in a table of positive increments a key has a non-zero count exactly when it has an entry |
| Tally.BestIndex | backend/app/scripts/ingest_coreapi.py:95 | `max(items, key=count)` picks an entry with the largest count, and no earlier entry has that count |
| FieldDetection.AcademicFieldsDistinct | backend/app/scripts/ingest_coreapi.py:16-42 | the five configured field names are distinct |
| FieldDetection.TitleText | backend/app/scripts/ingest_coreapi.py:46 | raises exactly when the title is not a string; the text is lower case |
| FieldDetection.OptionalText | backend/app/scripts/ingest_coreapi.py:49-56 | a missing or None abstract or full text reads as `""`; a non-string raises |
| FieldDetection.FieldOfStudyText | backend/app/scripts/ingest_coreapi.py:59-63 | a missing or None field of study reads as `""`; anything else is its lower-cased `str` |
| FieldDetection.ReadTexts | backend/app/scripts/ingest_coreapi.py:46-63 | reading fails exactly when the title, abstract or full text cannot be lower-cased |
| FieldDetection.ScoreOfDistinct | backend/app/scripts/ingest_coreapi.py:65-91 | with distinct names, a field's score is its own weighted score: 5 once when any keyword is in the field of study, plus 3 per title keyword, 2 per abstract keyword and 1 per full-text keyword found |
| FieldDetection.FieldScoresMatchScore | backend/app/scripts/ingest_coreapi.py:65-91 | the table the four loops build holds exactly those reference scores, with positive counts and only field names as keys |
| FieldDetection.KeywordPassEffect | backend/app/scripts/ingest_coreapi.py:74-91 | one keyword loop adds the weight times the number of that field's keywords found in the text |
| FieldDetection.FieldOfStudyPassEffect | backend/app/scripts/ingest_coreapi.py:67-71 | the field-of-study loop adds 5 once per field that has a keyword in it, not once per keyword |
| FieldDetection.ScoreSplits | backend/app/scripts/ingest_coreapi.py:67-91 | the reference score is the sum of the four loops' contributions; an empty text contributes nothing |
| FieldDetection.DetectFromTexts | backend/app/scripts/ingest_coreapi.py:93-99 | None exactly when every field scores below 2; otherwise a configured field name whose score is at least 2 and maximal |
| FieldDetection.DetectField | backend/app/scripts/ingest_coreapi.py:44-99 | raises exactly when a text cannot be lower-cased; otherwise None or a configured field name, with the score conditions above |
| FieldDetection.DetectIgnoresCase | backend/app/scripts/ingest_coreapi.py:46-63 | papers whose texts differ only in letter case are classified alike |
| PaperIdentity.PaperId | backend/app/scripts/ingest_coreapi.py:101-120 | a truthy `id` gives `core_` plus its text, even when there is a DOI. Else a truthy `doi` gives `doi_` plus its text. Else it raises exactly when reading the title or first author raises, and otherwise gives `hash_` followed by the first 16 hex digits of the MD5 of `title|first_author` |
| PaperIdentity.NormalizeIgnoresCaseAndPadding | backend/app/scripts/ingest_coreapi.py:112 | `lower().strip()` ignores letter case and surrounding whitespace |
| PaperIdentity.PaperIdDeterminedByHash | backend/app/scripts/ingest_coreapi.py:111-120 | without id and DOI, the identifier depends only on the normalised title and first author |
| PaperIdentity.HashIdIgnoresTitleCaseAndPadding | backend/app/scripts/ingest_coreapi.py:112-120 | papers without id or DOI whose titles differ only in case and surrounding whitespace get the same id |
| PaperIdentity.FirstAuthorNamed | backend/app/scripts/ingest_coreapi.py:114-115 | a non-empty author list whose first author has a string name gives that name, normalised |
| PaperIdentity.HashIdIgnoresAuthorCaseAndPadding | backend/app/scripts/ingest_coreapi.py:113-120 | the same holds for the first author's name |
| CollectedRecord.AuthorNames | backend/app/scripts/ingest_coreapi.py:193 | the names list has one entry per author, each `name` defaulting to `""`. It raises when an author is not a dict, or when `authors` is a non-empty string or dict, or not iterable |
| CollectedRecord.PaperData | backend/app/scripts/ingest_coreapi.py:187-207 | the record has exactly the nineteen `paper_data` keys and holds the paper id, keyword, field of study and classifier verdict; it raises exactly when the author names do |
| CollectedRecord.PaperDataDerived | backend/app/scripts/ingest_coreapi.py:192-204 | it also holds the author names, the two presence flags (`is not None`), the citation count defaulting to 0, and the `Direct keyword:` strategy |
| CollectedRecord.PaperDataCopied | backend/app/scripts/ingest_coreapi.py:188-206 | it also holds the paper's `id` and `yearPublished` (None when missing), its `title`, `abstract`, `doi`, `publisher`, `documentType`, `downloadUrl` and `fullText` (`""` when missing), and the collection time |
| CollectedRecord.RecordOfFieldsKeys | backend/app/scripts/ingest_coreapi.py:187-207 | the record holds exactly the nineteen keys |
| Collection.PapersPerKeyword | backend/app/scripts/ingest_coreapi.py:128 | `target // n` is the floor quotient, and raises `ZeroDivisionError` exactly when there are no keywords |
| Collection.Examine | backend/app/scripts/ingest_coreapi.py:174-210 | a result is a duplicate exactly when its id was seen, and the classifier runs only for new ids. A new result is accepted exactly when its field text names the field or one of its keywords, or the classifier picked the field. An accepted record has the nineteen keys, the id and the keyword, and passes the test on its own stored fields. It raises only when the id, the classifier or the author list raises |
| Collection.AppendCollected | backend/app/scripts/ingest_coreapi.py:186-209 | appending an accepted, unseen record keeps ids distinct, `seen_paper_ids` equal to the collected ids, and raises only its keyword's count |
| Collection.CollectFromPage | backend/app/scripts/ingest_coreapi.py:170-210 | the result loop stops at the keyword's cap and only appends records kept for this keyword. When it ends below the cap, every acceptable result of the page has its id among the seen ids. It raises only when some result's id, classification or author list raises |
| Collection.FoundWhenFetched | backend/app/scripts/ingest_coreapi.py:149-232 | the results a page hands to the result loop come from a status-200 reply that followed only 500 and 429 replies, fewer than three of them 500s |
| Collection.FoundAfterRetries | backend/app/scripts/ingest_coreapi.py:149-232 | conversely, such a 200 reply's results are the page's results |
| Collection.ServerErrorsGiveUp | backend/app/scripts/ingest_coreapi.py:216-220 | three 500 replies, with any 429s among them, give the page no results |
| Collection.GivenUpPageSkipped | backend/app/scripts/ingest_coreapi.py:145-235 | a page given up after three 500s contributes nothing, yet the keyword's search goes on: below the cap, the acceptable results of the later pages are still kept |
| Collection.CollectForKeyword | backend/app/scripts/ingest_coreapi.py:141-235 | the page loop adds at most `papers_per_keyword` records, all for this keyword. When it adds fewer, every acceptable result on all twenty pages has its id among the seen ids. It raises only when some result on its pages raises |
| Collection.CountAfterKeyword | backend/app/scripts/ingest_coreapi.py:138-209 | after the `k`-th keyword, each keyword's count is within the cap times its occurrences among the keywords searched so far |
| Collection.CollectKeywords | backend/app/scripts/ingest_coreapi.py:138-237 | the keyword loop ends with every record accepted and carrying one of the keywords, ids distinct, and counts within the cap. Every keyword whose count ends below the cap has had each acceptable result of its pages kept or already seen. It raises only when a result on some keyword's pages raises |
| Collection.CollectSourcesForField | backend/app/scripts/ingest_coreapi.py:122-252 | collected `paper_id`s are pairwise distinct. Every record has the nineteen keys, passes the acceptance test and names one of the keywords. With distinct keywords, none contributes more than `target // len(keywords)` papers, and a non-negative target is never exceeded. Every keyword that ends below `target // len(keywords)` papers has each acceptable result of its pages among the collected ids. No keywords raises `ZeroDivisionError`; otherwise it raises only when a result on some keyword's pages raises |
| Collection.CapPerKeyword | backend/app/scripts/ingest_coreapi.py:128-209 | with distinct keywords each keyword's count is at most the cap |
| Collection.TotalWithinTarget | backend/app/scripts/ingest_coreapi.py:128-209 | at most the cap per keyword keeps the total within a non-negative target |
| Collection.CollectedIdsDistinct | backend/app/scripts/ingest_coreapi.py:176-186 | the collected records have pairwise distinct `paper_id`s |
| Collection.CollectAllFields | backend/app/scripts/ingest_coreapi.py:290-295 | the result has one entry per configured field, collected for target 500: the guarantees of the collected list, and every acceptable result of each keyword that ends below its cap among that field's ids, with ids from `create_paper_id` and verdicts from `detect_field_from_content` over the configured table. It raises only when some field's result cannot be read |
| Collection.CollectFields | backend/app/scripts/ingest_coreapi.py:293-295 | the field loop stores under each field's name a list with the collection guarantees that also holds every acceptable result of that field's keywords left below their cap. It raises only when some field has no keywords or an unreadable result |
| Distribution.KeywordCounts | backend/app/scripts/ingest_coreapi.py:259-262 | counting raises `TypeError` exactly when some paper's keyword is a list or dict |
| Distribution.KeywordCountsCorrect | backend/app/scripts/ingest_coreapi.py:259-262 | each keyword's count is the number of papers naming it, with unique keys and positive counts |
| Distribution.KeywordCountsKeys | backend/app/scripts/ingest_coreapi.py:259-262 | a keyword has an entry exactly when some paper names it |
| Distribution.CollectedCountable | backend/app/scripts/ingest_coreapi.py:259-262 | the counts of a collected list never raise |
| Distribution.MaxCount | backend/app/scripts/ingest_coreapi.py:268 | the largest count, and 0 for no counts |
| Distribution.MinCount | backend/app/scripts/ingest_coreapi.py:269 | the smallest count, and 0 for no counts |
| Distribution.SkewedIff | backend/app/scripts/ingest_coreapi.py:268-274 | skewed exactly when some count is more than three times another; never for no counts |
| Distribution.SkewedReferences | backend/app/scripts/ingest_coreapi.py:259-274 | the same test stated over the papers: some paper's keyword has more than three times the papers of another's |
| Distribution.AnalyzeField | backend/app/scripts/ingest_coreapi.py:256-274 | a field's report is skewed exactly when that holds |
| Distribution.AnalyzeAll | backend/app/scripts/ingest_coreapi.py:254-274 | one report per field, or `TypeError` when some field's keywords cannot be counted |
| Metadata.SanitizeList | backend/app/scripts/pinecone_upload.py:107-117 | a list becomes a list of strings, shorter by exactly its None elements |
| Metadata.SanitizeListAppend | backend/app/scripts/pinecone_upload.py:107-117 | elements keep their order |
| Metadata.SanitizeListPointwise | backend/app/scripts/pinecone_upload.py:107-117 | without None elements, element `i` becomes element `i`'s text |
| Metadata.SanitizeStringList | backend/app/scripts/pinecone_upload.py:107-117 | a list of strings is left as it is |
| Metadata.SanitizeValue | backend/app/scripts/pinecone_upload.py:93-123 | the result is always a string, number, bool or list of strings: None becomes `""`, primitives stay, and dicts become their JSON text |
| Metadata.SanitizeFixpoint | backend/app/scripts/pinecone_upload.py:93-123 | a value is unchanged exactly when it is already allowed, so sanitising twice is sanitising once |
| Metadata.SanitizeMetadata | backend/app/scripts/pinecone_upload.py:125-136 | a dict keeps exactly its keys with every value sanitised, and a falsy argument gives `{}`. Another non-dict raises `AttributeError` |
| Metadata.BuildMetadata | backend/app/scripts/pinecone_upload.py:141-158 | exactly the twelve listed keys, every value of an allowed type |
| Metadata.TextFieldStored | backend/app/scripts/pinecone_upload.py:145-146 | a missing or falsy `summary` or `fieldOfStudy` is stored as `""` |
| Metadata.PaperIdStored | backend/app/scripts/pinecone_upload.py:147 | `paper_id` is stored as its `str`, or `""` when None or missing |
| Metadata.OtherFieldStored | backend/app/scripts/pinecone_upload.py:144-156 | the other keys are read with `get`, so a missing one is stored as `""` |
| VectorUpload.InferEmbeddingDim | backend/app/scripts/pinecone_upload.py:54-59 | None exactly when no record has a non-empty vector list; otherwise the length of the first one |
| VectorUpload.EmptyEmbeddingFallsThrough | backend/app/scripts/pinecone_upload.py:56 | an empty `embedding` list falls through to `vector` and `values` |
| VectorUpload.ProblemOf | backend/app/scripts/pinecone_upload.py:181-185 | a record is flagged exactly when its vector is not a list of the inferred dimension |
| VectorUpload.Problems | backend/app/scripts/pinecone_upload.py:179-185 | the `invalid` list is empty exactly when every record fits; its indices are in range and increasing |
| VectorUpload.ProblemsAreReal | backend/app/scripts/pinecone_upload.py:179-185 | every listed record does not fit, for the reason given |
| VectorUpload.FallbackIdsDistinct | backend/app/scripts/pinecone_upload.py:164 | records without id and paper id at different positions get different `doc_` ids |
| VectorUpload.FirstWithoutVector | backend/app/scripts/pinecone_upload.py:162-169 | finds the first record of the batch whose vector is not a list |
| VectorUpload.UpsertBatch | backend/app/scripts/pinecone_upload.py:160-173 | a batch succeeds exactly when every vector is a list, giving one triple per record in order. Otherwise it raises for the first bad record before anything is upserted |
| VectorUpload.BatchEnd | backend/app/scripts/pinecone_upload.py:193-194 | a batch is non-empty, at most `size` long, and exactly `size` unless it is the last |
| VectorUpload.BatchesCover | backend/app/scripts/pinecone_upload.py:190-194 | the batches are contiguous, cover every record in order, and all but the last hold exactly `size` |
| VectorUpload.UploadFromBatches | backend/app/scripts/pinecone_upload.py:190-196 | when every record has a vector list the batch loop succeeds, upserting the triples of all records in order |
| VectorUpload.UploadBatchSizes | backend/app/scripts/pinecone_upload.py:193-196 | the upserted batches follow the record batches one for one |
| VectorUpload.Upload | backend/app/scripts/pinecone_upload.py:61-196 | raises exactly when: no dimension can be inferred; some record does not fit (nothing is upserted); or the batch size is 0. A negative size uploads nothing |
| VectorUpload.UploadComplete | backend/app/scripts/pinecone_upload.py:160-196 | a successful upload sends every record once, in order, with the id of its position, its vector of the inferred dimension, and its `build_metadata` |

## Left out

- The HTTP requests themselves are not modelled, nor are the sleeps, the printed statistics or `response.json()` failing. Each request's reply is a `Collection.Reply`: status 200 with its results, 500, 429, or another status. `Collection.PageFetched` models the retry loop for one page (`ingest_coreapi.py` lines 149-232):
  - after the third 500, the loop's own condition `retry_count < max_retries` ends it;
  - a status other than 200, 500 and 429 ends it by `break`, and so does an empty `results`, at line 164;
  - the `retry_count >= max_retries` test at lines 230-232 cannot be reached, because every branch before it ends in `break` or `continue`;
  - in every case line 234 moves on to the next offset, so a failed or empty page never ends the keyword.

  The collection loops take the pages themselves, at offsets 0, 50, … 950; `Collection.KeywordPages` builds them from the replies. A page beyond the given ones holds no results. An endless run of 429 replies, on which the script would wait forever, is outside the model, since the replies are a finite list.
- The language-model client, `build_prompt`'s fixed instructions, and the extra sentence appended to the prompt before a retry are not modelled. The reply to each call is a parameter that may be any text or an exception. `_save_failed_raw` is left out as file output.
- The closing `RuntimeError` of `call_gemini_with_schema` cannot be reached with three attempts, so it is not modelled.
- `json.loads`, `json.dumps`, `hashlib.md5`, `datetime.now()` and Python's `str()` of lists and dicts are function parameters. The model only relies on an MD5 digest being 32 lower-case hex digits.
- File input and output are not modelled. This covers:
  - finding the input file and flattening its top-level dict of lists (`process_sources.py` lines 221-241);
  - loading and saving the checkpoint file;
  - writing the batch files, which the model returns as values;
  - `merge_all_batches` and `save_sources_to_file`;
  - the `failed_batch_*.json` dump.
- The model does not cover Pinecone's client, index creation, the `index.upsert` call itself (the model returns the upserted batches), the sanity query, the `BATCH_SIZE` environment parse and the pause between batches.
- Embedding values are floats and stay opaque; only their being a list and their count matter. A float carries the text `str()` prints for it.
- Python's `lower()` is modelled for ASCII letters only. `strip()` uses Python's whitespace characters.
- Dict keys are unique, so the field table's names are assumed distinct; `AcademicFieldsDistinct` proves it for the configured table. Dict insertion order is modelled only where it decides something: the classifier's score table, where it breaks ties in `max`.
- Python's `1 == 1.0 == True` is not modelled. Values are compared structurally, which matters only for ids of mixed types in the processed-id set.
- Every source and record is taken to be a dict; a non-dict element of the input list would make `.get` raise.
- Each collected paper is handed to `PaperData` with the time it was collected, which is the only use of the clock. `Collection.CollectFields` takes that time as `clock(f, n)` for the `n`-th paper of field `f`, and hands each field its own `n => clock(f, n)`.
- The collection loops receive `create_paper_id` and `detect_field_from_content` as the parameters `idOf` and `classify`; `Collection.CollectFields` binds them to `PaperIdentity.PaperId` and to `FieldDetection.DetectField` over the configured field table.
- FieldDetection.DetectFromTexts: states that the chosen field's score is maximal and at least 2. It does not state the tie-break, which is the first field in the table's insertion order; `Tally.BestIndex` states that rule for the table itself.
- Collection.CollectSourcesForField: states which acceptable results are kept only for keywords that end below their cap. It does not state the order of the records, which of a capped keyword's acceptable results were kept, or that each record was built from one of the results; `Collection.Examine` states the last for a single result.
- Preprocess.ProcessedTextLayout: states the layout for a string full text. A list full text is cut into the same parts, but each part holds `str()` of a slice, which is a parameter, so the lemma does not spell it out.
- Collection.CollectAllFields: the per-keyword cap is stated with the cap written as repeated addition (`Times`); `Collection.TimesIsProduct` ties it to the product.
- Metadata.SanitizeValue: the `str(v)` fallback after a failing `json.dumps`, and `sanitize_metadata`'s `except` branch, cannot be reached for values decoded from JSON, so they are not modelled.
- CheckpointLoop.SameIdSummarisedOnce: sources with neither `id` nor `paper_id` all have the id None. Only the first of them that summarises successfully gets a result; the rest are skipped as already processed. This is what the script does, and the model keeps it.
