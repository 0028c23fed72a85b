# LLM reply parsing and interactor bookkeeping — a Dafny model

This project models three utilities of a protein-interaction pipeline that
talks to a large language model:

- `utils/llm_response_parser.py` — `extract_json_from_llm_response` finds the
  JSON in a model reply. It tries, in order: every fenced code block (the
  pattern ```` ```(?:json)?\s*([\s\S]*?)\s*``` ````, case-insensitive,
  leftmost and non-overlapping), then the whole stripped text, then the span
  from the first `{` or `[` to the last matching `}` or `]`. If nothing
  decodes it raises `ValueError` with the reply's length and a 200-character
  preview.
- `utils/evidence_validator.py` — `validate_and_enrich_evidence` audits the
  interactors of `ctx_json` in batches. For each batch it asks the model and
  reads its reply as a list, as a dict with `interactors`, or falls back to
  the batch itself. It drops interactors marked `DELETED`. It filters each
  interactor's functions: `DELETED`/`FALSE` are dropped, `TRUE` functions with
  a confidence score below 8 are dropped, and `CORRECTED` functions are kept.
  It drops interactors left without functions unless they are `TRUE`. If an
  exception happens inside a batch, the whole original batch is appended
  instead. The resulting list is written back into `ctx_json`, and into
  `snapshot_json` when present. The module also has a fallback extractor used
  when the parser module cannot be imported.
- `utils/indirect_chain_linker.py` — `process_indirect_chain` selects the
  indirect interactors that name an upstream mediator. For each one it asks
  the model for the mediator→target function and saves it as a direct
  interaction of the mediator. If a record for the target exists it appends to
  it; otherwise it saves a new record. It then counts the link and tags the
  interactor `mediator->target`. `_coerce_token_count` is the best-effort
  integer conversion.

Modules:

- `Wrappers` — `Option` and `Result`.
- `PyText` — `str.isspace`, `strip`/`lstrip`/`rstrip` with and without
  characters, `find`/`rfind`, `startswith`/`endswith`.
- `PyJson` — decoded JSON values and the Python operations the utilities apply
  to them: `dict.get`, item assignment, truthiness, `int()`, iteration, `==`,
  `str()`.
- `LlmResponseParser`, `EvidenceValidator`, `IndirectChainLinker` — one per
  source file.

The model is a value model, with these parameters:

- `json.loads` is the parameter `parse` (`None` for a `JSONDecodeError`).
- The model call is an oracle parameter `ask`:
  - in the validator, `ask(batch_start, batch)` gives the reply text, or
    `None` when the call raised;
  - in the linker, `ask(k, context)` gives the reply text of the `k`-th call
    with that chain context.
- `str()` of a float, list or dict is the parameter `render`.
- The protein database is the class `IndirectChainLinker.InteractionStore`:
  a map from mediator to its saved records.

The batch loop, the function filter, the audit of a reply's interactor list
and the linker loop are `method`s with loops. Each is proved equal to a
recursive specification function, and the lemmas are proved about those
functions.

## Model

| member | source | states |
|---|---|---|
| PyJson.LookupSpec | utils/evidence_validator.py:272-279 | `d.get(key)` finds the first entry with that key, and none exactly when the key is absent |
| PyJson.Put | utils/evidence_validator.py:301 | `d[key] = v` makes `key` map to `v`, leaves every other key and the key order alone, and adds a new key last |
| PyJson.IntOfDecimalString | utils/evidence_validator.py:292 | `int(str(n)) == n` for every integer (the `int()` of a string the score check applies) |
| PyJson.PyIntOfFloats | utils/evidence_validator.py:292 | `int()` of every finite float truncates toward zero: the result is within one of the float, on the zero side, and an integral float gives its own value; both infinities raise `OverflowError` and NaN raises `ValueError` |
| PyJson.PyEqNumbers | utils/indirect_chain_linker.py:221 | for every boolean, integer and float: Python `==` identifies `True`/`False` with 1/0 and an integer with the float of its value, compares floats by value, and sets `NaN` apart from every value, itself included |
| PyText.Find | utils/llm_response_parser.py:51-52 | `find` gives the first index of the character, and -1 exactly when it is absent |
| PyText.RFind | utils/llm_response_parser.py:66-67 | `rfind` gives the last index of the character, and -1 exactly when it is absent |
| PyText.StripPadded | utils/llm_response_parser.py:28 | whitespace around a text never changes what `strip` returns |
| PyText.StripShape | utils/llm_response_parser.py:28 | `strip` returns the middle of the text without whitespace at either end |
| LlmResponseParser.NextFence | utils/llm_response_parser.py:32 | the next three backticks at or after a position, with none in between |
| LlmResponseParser.MatchAtShape | utils/llm_response_parser.py:32 | a match opens with three backticks and an optional `json` tag (taken whenever present), and closes at the first three backticks after it |
| LlmResponseParser.MatchAtExists | utils/llm_response_parser.py:32 | an opening fence with a closing fence after it always matches, closing no later than that fence |
| LlmResponseParser.FenceMatchesAreLeftmost | utils/llm_response_parser.py:33 | `re.findall` returns the leftmost non-overlapping matches: none is skipped and each search resumes after the previous closing fence |
| LlmResponseParser.SpanStartIsFirstOpener | utils/llm_response_parser.py:51-60 | the span starts at the first `{` or `[`, and there is no start exactly when neither occurs |
| LlmResponseParser.SpanCandidateBounds | utils/llm_response_parser.py:62-76 | the span runs from its opener to the last closer of the same kind, with no such closer after it |
| LlmResponseParser.SpanCandidateMissing | utils/llm_response_parser.py:62-76 | there is no span exactly when there is no opener or no matching closer after it |
| LlmResponseParser.FirstParseIsFirstSuccess | utils/llm_response_parser.py:36-40 | the first candidate that decodes is returned, and nothing is returned exactly when none decodes |
| LlmResponseParser.AttemptTriesCandidatesInOrder | utils/llm_response_parser.py:36-80 | extraction tries the fenced blocks, then the whole text, then the span, in that order |
| LlmResponseParser.ExtractFailsOnlyIfNothingDecodes | utils/llm_response_parser.py:82-87 | extraction fails exactly when no candidate decodes, and then reports the reply's length and a preview of `min(200, len)` characters |
| LlmResponseParser.FirstDecodingFenceWins | utils/llm_response_parser.py:36-40 | the first fenced block that decodes is the result |
| LlmResponseParser.WholeTextOnlyAfterFences | utils/llm_response_parser.py:42-80 | the whole text is used only when no block decodes, and the span only when the whole text does not decode either |
| LlmResponseParser.ExtractIgnoresSurroundingWhitespace | utils/llm_response_parser.py:28 | whitespace around the reply does not change what is extracted |
| LlmResponseParser.SingleJsonFence | utils/llm_response_parser.py:30-38 | a reply that is one ```` ```json ```` block decodes to its body |
| LlmResponseParser.NoneTextRaisesTypeError | utils/llm_response_parser.py:28-87 | as written, a `None` reply in which nothing decodes raises `TypeError` at `len(None)`; the corrected definition raises the documented error |
| LlmResponseParser.ExtractJsonAgreesOnText | utils/llm_response_parser.py:28-87 | on a string, the corrected and the as-written extractors agree |
| EvidenceValidator.FallbackAttempts | utils/evidence_validator.py:40-47 | the fallback returns the cleaned text's value when it decodes; otherwise it returns the `{`…`}` span when that decodes; otherwise it raises `ValueError` (also when either brace is missing) |
| EvidenceValidator.FallbackBraceSpan | utils/evidence_validator.py:40-47 | when the cleaned text does not decode, the span tried runs from the first `{` to the last `}`: its value is returned when it decodes, and `ValueError` is raised when it does not or when that `}` does not come after that `{` |
| EvidenceValidator.FallbackCleanedJsonFence | utils/evidence_validator.py:35-39 | the fallback cleans a ```` ```json ```` block down to its body |
| EvidenceValidator.FallbackAgreesOnJsonFence | utils/evidence_validator.py:34-47 | on a single ```` ```json ```` block the fallback and the parser decode the same value |
| EvidenceValidator.FunctionVerdictRules | utils/evidence_validator.py:279-299 | `DELETED`/`FALSE` drop a function; a truthy `TRUE` score is kept iff `int(score) >= 8`; a truthy `TRUE` score that `int()` rejects raises that error; a `TRUE` without a score and a `CORRECTED` with a sliceable consensus are kept, while a `CORRECTED` whose consensus cannot be sliced raises `TypeError`; every other validity is kept; a function is dropped only for those reasons |
| EvidenceValidator.KeptFunctionsSpec | utils/evidence_validator.py:277-299 | the filter raises exactly when some function raises, and then with the first one's exception; otherwise it keeps exactly the functions whose verdict is to keep, each as many times as it occurs in the input |
| EvidenceValidator.KeptFunctionsAppend | utils/evidence_validator.py:277-299 | filtering keeps the relative order of the functions |
| EvidenceValidator.FilterFunctions | utils/evidence_validator.py:277-299 | the loop computes that filter |
| EvidenceValidator.AuditInteractorSpec | utils/evidence_validator.py:270-307 | a kept interactor is not `DELETED`; it is the same record with only its functions replaced by the filtered ones, and it holds a function unless it is `TRUE` |
| EvidenceValidator.AuditInteractorKeeps | utils/evidence_validator.py:270-307 | a non-dict raises `AttributeError`; a `DELETED` dict is dropped unchanged; any other dict whose functions iterate and filter without raising is kept exactly when a function survives or it is `TRUE`, and its functions are replaced by the filtered ones either way; an exception of the iteration or the filter escapes |
| EvidenceValidator.AuditOne | utils/evidence_validator.py:270-307 | the loop body computes that audit |
| EvidenceValidator.AuditFromClean | utils/evidence_validator.py:270-307 | a batch whose interactors all audit cleanly appends exactly their survivors, in order |
| EvidenceValidator.AuditFromRaises | utils/evidence_validator.py:270-311 | an interactor that raises keeps what was appended before it and then appends the whole original batch |
| EvidenceValidator.AuditFromRaisesAliased | utils/evidence_validator.py:270-311 | when the audited list is the batch itself and an interactor raises, what was appended before it stays, and the batch appended after it carries the filtered functions of the interactors audited before the raise |
| EvidenceValidator.RaisedBatchAppendsAfterPartialResults | utils/evidence_validator.py:270-311 | a `TRUE` interactor followed by a non-dict ends up in the list twice: once as survivor, once in the batch |
| EvidenceValidator.AuditBatchResults | utils/evidence_validator.py:270-311 | the loop over the reply's interactors computes that outcome, including the aliased case where the audited list is the batch itself |
| EvidenceValidator.KeptIsSurvivor | utils/evidence_validator.py:272-307 | a kept interactor is a dict that is not `DELETED` and that holds a non-empty function list unless it is `TRUE` |
| EvidenceValidator.AuditFromSurvivors | utils/evidence_validator.py:270-307 | when every kept interactor is a survivor, every record a clean pass appends is one |
| EvidenceValidator.CleanBatchDropsDeleted | utils/evidence_validator.py:255-307 | a batch that does not raise appends no `DELETED` interactor and no interactor without functions unless it is `TRUE` |
| EvidenceValidator.ProcessBatch | utils/evidence_validator.py:255-311 | one batch's `try` block computes what the batch appends: the reply read as a list, as an `interactors` dict, or the batch itself |
| EvidenceValidator.BatchesPartition | utils/evidence_validator.py:247-249 | together the batches are the interactor list, in order, each non-empty and at most `batch_size` long |
| EvidenceValidator.RunOverBatches | utils/evidence_validator.py:247-311 | the batch loop runs over the partition: it raises `AttributeError` exactly when some batch does not start with a dict, and otherwise returns what each batch appends, batch after batch, each batch seen with its start index |
| EvidenceValidator.AllCallsFailKeepsInput | utils/evidence_validator.py:309-311 | when every model call fails, the validated list is the input list |
| EvidenceValidator.RunTurn | utils/evidence_validator.py:247-311 | one turn of the batch loop either raises the prompt's `AttributeError`, ending the run, or appends what the batch validates to and moves on by `batch_size` |
| EvidenceValidator.RunBatches | utils/evidence_validator.py:244-311 | the batch loop builds the validated list batch by batch, or raises the `AttributeError` of building a prompt for a batch that does not start with a dict |
| EvidenceValidator.WriteBackSpec | utils/evidence_validator.py:313-317 | the write-back replaces the interactor list of `ctx_json` (and of `snapshot_json` when present) and nothing else |
| EvidenceValidator.ValidateWithoutContext | utils/evidence_validator.py:230-231 | without `ctx_json` the document comes back unchanged |
| EvidenceValidator.ValidateWithoutInteractors | utils/evidence_validator.py:234-238 | with missing or empty interactors the document comes back unchanged |
| EvidenceValidator.ValidateNegativeBatchSize | utils/evidence_validator.py:247 | with a negative batch size no batch runs and the interactor list becomes empty |
| EvidenceValidator.ValidateAndEnrichEvidence | utils/evidence_validator.py:220-319 | the whole function, including its early returns and the exceptions that escape it |
| IndirectChainLinker.CoerceTokenCountAsWrittenRaises | utils/indirect_chain_linker.py:47-52 | as written, the conversion raises `OverflowError` exactly on the infinities, and otherwise agrees with the total conversion |
| IndirectChainLinker.CoerceTokenCountByKind | utils/indirect_chain_linker.py:47-52 | an integer counts as itself, a boolean as 1 or 0, an integral float as its value; `None`, lists, dicts, the infinities and NaN count as 0 |
| IndirectChainLinker.CoerceDecimalString | utils/indirect_chain_linker.py:47-52 | a count given as its decimal text converts back to that count |
| IndirectChainLinker.SelectFromSpec | utils/indirect_chain_linker.py:125-128 | the selection raises exactly when some interactor is not a dict; otherwise it lists, in original order, exactly the `indirect` interactors with a truthy `upstream_interactor` |
| IndirectChainLinker.ProcessWithoutWork | utils/indirect_chain_linker.py:114-133 | whatever the model replies: without a key, or without an indirect interactor naming a mediator, `ctx_json` comes back unchanged and nothing is saved |
| IndirectChainLinker.ChainContextSpec | utils/indirect_chain_linker.py:147-154 | with functions, the context is `Function: <function>`, then `Process: <cellular_process>` of the first function, then the chain, one per line; without, it is the chain alone; a non-dict first function raises |
| IndirectChainLinker.StepSkipsUnreadableReply | utils/indirect_chain_linker.py:199-208 | a reply in which no JSON is found, or one that decodes to an empty value, skips the interactor |
| IndirectChainLinker.NewInteractionShape | utils/indirect_chain_linker.py:210-216 | the new record has the target as `primary`, the reply's `arrow`, the reply as its only function, type `direct` and the query as origin |
| IndirectChainLinker.FirstWithPrimarySpec | utils/indirect_chain_linker.py:221 | the search returns the first record whose `primary` equals the target; it finds none exactly when every record is a dict without that primary; a non-dict before a match raises |
| IndirectChainLinker.MergeSpec | utils/indirect_chain_linker.py:223-227 | merging appends the reply after every earlier function and leaves the other fields alone; the new record is used when no record, or an empty one, exists |
| IndirectChainLinker.LinkReplySavesNewRecord | utils/indirect_chain_linker.py:208-236 | with no record for the target, the new record is saved last among the mediator's records, no other mediator changes, and the interactor is tagged `mediator->target` |
| IndirectChainLinker.LinkReplyMergesIntoExisting | utils/indirect_chain_linker.py:219-236 | with a record for the target, the first such record is saved back in place with the reply appended to its functions |
| IndirectChainLinker.SaveRecordAppends | utils/indirect_chain_linker.py:233 | saving a record that matches no existing one adds it last |
| IndirectChainLinker.SaveRecordReplaces | utils/indirect_chain_linker.py:233 | saving over the first matching record replaces it in place |
| IndirectChainLinker.StepTags | utils/indirect_chain_linker.py:236 | every link tags the interactor `_linked_mediator_interaction = "mediator->target"` and keeps its other fields |
| IndirectChainLinker.LinkFromCounts | utils/indirect_chain_linker.py:140-236 | `linked_count` is the number of turns that linked; every turn but the last succeeded; the loop raises exactly when its last turn raised, and otherwise it took one turn per selected interactor |
| IndirectChainLinker.LinkFromStores | utils/indirect_chain_linker.py:142-233 | each turn sees the database as the previous turn left it, and the database at the end is the one the last turn left, so saves made before an exception are kept |
| IndirectChainLinker.LinkFromInputs | utils/indirect_chain_linker.py:142-208 | each turn works on its interactor as the selection found it; no earlier turn changed it |
| IndirectChainLinker.LinkFromTags | utils/indirect_chain_linker.py:142-236 | each interactor the loop reached ends up tagged by its own turn when that turn linked, and as it was otherwise |
| IndirectChainLinker.LinkFromFrame | utils/indirect_chain_linker.py:142-236 | the loop keeps the list's length, counts at most one link per selected interactor, and leaves the other interactors alone |
| IndirectChainLinker.ProcessSuccess | utils/indirect_chain_linker.py:105-239 | whatever the model replies, a successful run changes only `ctx_json`'s interactor list. The list keeps its length, interactors that were not selected are untouched. Whether or not the returned dict differs from the input, the count is at most the list's length, and it is 0 when `interactors` is not a list |
| IndirectChainLinker.InteractionStore.SaveInteraction | utils/indirect_chain_linker.py:233 | saving changes only the mediator's records, replacing or appending the record |
| IndirectChainLinker.LinkInteractor | utils/indirect_chain_linker.py:143-236 | the loop body raises, skips or links as the turn function says, with the database changed only on a link |
| IndirectChainLinker.LinkSelected | utils/indirect_chain_linker.py:140-236 | the loop computes the turn-by-turn result, keeping the saves made before an exception |
| IndirectChainLinker.ProcessIndirectChain | utils/indirect_chain_linker.py:105-239 | the whole function: returned `ctx_json` or escaping exception, the database afterwards, and `linked_count` |

## Left out

- Printing, logging, `step_logger`, and the re-encoding of `sys.stdout`/`sys.stderr` on Windows: they have no effect on the results.
- The Gemini client (`call_gemini_with_search`, `call_gemini_chain_link`): model lists, retries, back-off, `time.sleep` and thinking budgets are network I/O, so they are the oracle `ask`.
- The linker's `ask` never raises: this is an assumption of the model. The attempts of `call_gemini_chain_link` are guarded, and it returns `""` when every attempt fails. But `google_genai.Client(...)` and `types.GenerateContentConfig(...)` (utils/indirect_chain_linker.py:62-72) run outside any `try`, and `process_indirect_chain` does not guard the call. An exception there would escape `process_indirect_chain`, and the model does not capture that escape.
- Prompt wording (`create_rigorous_validation_prompt` and the linker's prompt). The validator's oracle sees the batch and its start index. The linker's oracle sees the chain context, which carries the main protein, the mediator and the target.
- `load_dotenv` and `os.getenv("GOOGLE_API_KEY")`: the environment key is a parameter `envKey`. The validator's `api_key` is only passed on to the model call.
- `load_json_file`, `save_json_file`, both `main`s and the `__main__` block: file and process plumbing.
- `utils/protein_database.py` is not part of this model. `InteractionStore` assumes three things:
  - `get_all_interactions` returns the mediator's saved records in order, or none;
  - `save_interaction` replaces the first record whose `primary` equals the target, or else appends;
  - the records it returns are fresh copies.
- The internals of `json.loads`: `parse` is a parameter, and the decoded values are the `Json` datatype (objects with distinct keys).
- Dict identity and aliasing: the model works on values. The one aliasing that changes the validator's result is modelled explicitly: a fallback reply audits the batch itself, and the exception handler then appends that batch. Updates made in place before an exception escapes the validator or the linker are not returned (the linker's saves are kept in the store).
- `str()` of floats, lists and dicts is the parameter `render`. `int()` of a string accepts ASCII digits only: no Unicode digits, and no 4300-digit limit.
- Slicing a dict raises `TypeError` up to Python 3.11 and `KeyError` from 3.12. Where the exception is caught the two are the same; where it escapes, the model raises `TypeError`.
- The fallback extractors exist only for when `utils.llm_response_parser` and `llm_response_parser` both fail to import. The validator's fallback (lines 34-47) is modelled as `EvidenceValidator.FallbackExtract`, but the batch loop uses the parser module. The linker's copy (lines 28-41) is the same code and is not modelled twice.
- `EvidenceValidatorError`, `MAX_THINKING_TOKENS` and `MAX_OUTPUT_TOKENS` are never used by the modelled code.
- `IndirectChainLinker.ProcessIndirectChain` also returns `linked_count`, which the source only prints.

## Findings

| source | as written | input that shows it | evidently intended | confidence | as-written member | corrected member |
|---|---|---|---|---|---|---|
| utils/llm_response_parser.py:85 | `(text or "")` accepts `None`, but the final error message calls `len(text)`, which raises `TypeError` on `None` | `extract_json_from_llm_response(None)` | the documented `ValueError`, reporting length 0 | not executed; high | LlmResponseParser.ExtractJsonAsWritten | LlmResponseParser.ExtractJson |
| utils/indirect_chain_linker.py:49-52 | `int(value)` catches only `TypeError` and `ValueError`; `int(float("inf"))` raises `OverflowError`, which escapes the "best-effort" conversion | `_coerce_token_count(float("inf"))` | 0, like every other value that cannot be converted | not executed; medium | IndirectChainLinker.CoerceTokenCountAsWritten | IndirectChainLinker.CoerceTokenCount |
