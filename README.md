# Settings and retrieval core of the RAG workshop application, in Dafny

This project models the core of a retrieval-augmented-generation application.
The browser side is a settings dialog (React, `src/components/settings.tsx` and
its older compiled form `settings.js`) over a settings vocabulary
(`src/types/settings.ts`). The Flask backend (`backend/`) holds the settings in
a process-wide store, validates updates against a schema, shapes search
results, deduplicates and reranks retrieved documents, expands a query with a
language model, cleans text and builds prompts.

Modules, one per source file, plus two shared ones:

- `Results` (`results.dfy`): `Option` and `Result`.
- `Text` (`text.dfy`): the Python string primitives the backend uses. These are
  `str.strip`, `str.split`, `str.join`, `str.lower` and the whitespace class
  shared by `strip` and `\s`.
- `SettingsTypes` (`settings_types.dfy`): the enumerations, the metric of each
  database, and the declared union `SettingsType`.
- `SettingsDialog` (`settings_dialog.dfy`):
  - the dialog's edits as pure whole-object updates;
  - the dialog itself as a class with the fields `isOpen`, `isSaving` and
    `localSettings`, which load and save update.
- `LegacySettingsDialog` (`settings_dialog_legacy.dfy`): the older dialog, with
  two providers, no key input and no open state.
- `SettingsSchema` (`settings_schema.dfy`): the backend's Pydantic records and
  `parse_settings`.
- `Server` (`server.py` routines in `server.dfy`):
  - the settings store (a class), the choice of database client and
    `/update-settings`;
  - the metric-dependent shaping of `/search` results (a loop);
  - the per-id deduplication of `/prompt` (a loop over a dictionary).
- `Rerank` (`search_service.dfy`): `rerank_documents`, a stable descending sort
  and a Python `[:top_k]` slice.
- `QueryExpansion` (`llm_service.dfy`): the post-processing loop of
  `expand_query`.
- `Prompts` (`prompts.dfy`): the separator and `RAGPromptTemplate.create_prompt`.
- `Helpers` (`helpers.dfy`): `clean_text` and `clean_documents`.
- `LlmProviders` (`llm_providers.dfy`): `get_llm_provider` and the key
  resolution of the OpenAI and Gemini providers.
- `Protocol` (`protocol.dfy`): the dialog and the backend together. It covers
  what a save sends, what the backend keeps, and what the startup load does.

Behaviours of the code worth noting:

- Switching the database always resets the metric to that database's Cosine,
  even when the old metric would still be valid (`SetDatabaseKeepsMetricIff`).
- The metric input never rejects a value. Only the current database's items are
  offered (`Offered`).
- A load whose body has no `settings` member stores `undefined` and does not
  keep the previous value (`Slot.Undefined`, `Settings.Load`). The form then
  cannot render.
- The backend has no `/load-settings` route, so the load always fails and the
  object stays `null`. The load runs only on mount, and the form with its save
  button is rendered only for an object, so the dialog shows "Loading" for good
  (`Protocol.MountDialog`).
- `LLMProvider.Domdata` is not a member of the enumeration, so its value is
  `undefined`. A save with it loses `llmProvider` and is answered 400
  (`Protocol.SaveAcceptedIff`). No save stores the text encoder or the API key.

## Model

The three loops are each proved against a definition on values:
- `Server.ShapeResults` is proved against the row-wise result, in its loop invariant.
- `Server.DedupById` is proved against `DedupPrefix`, the dictionary after a prefix; `DedupSpec` states what the finished dictionary is.
- `QueryExpansion.ExpandPieces` is proved against `Expansions(query, pieces[..i])`, whose properties are the `Expansions*` lemmas.

| member | source | states |
|---|---|---|
| Text.Strip | backend/services/llm_service.py:16 | `str.strip()`: the result has no whitespace at either end and is no longer than the input |
| Text.TrimStartDrops | backend/services/llm_service.py:22 | what the `\s*` after the numbering removes is a run of whitespace, and the rest is kept as it was |
| Text.TrimEndDrops | backend/services/llm_service.py:16 | what stripping the end drops is a run of whitespace, and the start is kept as it was |
| Text.StripOffset | backend/services/llm_service.py:20 | what `strip` removes is whitespace at each end; the result is the middle of the input, in place |
| Text.SplitCuts | backend/services/llm_service.py:16 | `str.split(sep)` cuts at the leftmost non-overlapping occurrences: in each piece but the last followed by the separator, the first occurrence of the separator is the one right after the piece, so no occurrence starts inside the piece; the last piece holds no occurrence |
| Text.JoinSplit | backend/services/llm_service.py:16 | splitting and re-joining with the separator gives the input back |
| Text.LowerIdempotent | backend/services/llm_providers.py:61 | lower-casing twice is lower-casing once |
| SettingsTypes.ParseDatabaseType | src/types/settings.ts:1-4 | a string names a database exactly when it is `postgres` or `mysql`, and the member's value is that string |
| SettingsTypes.ParseLLMProvider | src/types/settings.ts:16-19 | a string names a provider exactly when it is `ollama` or `openai` |
| SettingsTypes.CosineOf | src/types/settings.ts:6-14 | the Cosine member of a database's own metric enumeration, value `cosine` |
| SettingsTypes.L2Of | src/types/settings.ts:6-14 | the L2 member of a database's own metric enumeration, value `l2` |
| SettingsTypes.ParseMetric | src/types/settings.ts:6-14 | a metric string parses within a database exactly for `cosine` and `l2`, to a member of that database's enumeration |
| SettingsTypes.MetricDomain | src/types/settings.ts:26-34 | a database's metric domain is exactly its Cosine and its L2, and the two differ |
| SettingsTypes.WireRoundTrip | src/types/settings.ts:1-19 | every enumeration value parses back to its member |
| SettingsTypes.MakeSettings | src/types/settings.ts:21-36 | a `SettingsType` value exists exactly when the metric belongs to the database, and it carries the given fields |
| SettingsDialog.AsDeclared | src/types/settings.ts:21-36 | the dialog's object is a declared `SettingsType` exactly when its provider is declared and its metric is its database's |
| SettingsDialog.SetTextEncoder | src/components/settings.tsx:98-103 | only the text encoder changes |
| SettingsDialog.SetDatabase | src/components/settings.tsx:111-119 | the database changes and the metric becomes that database's Cosine; nothing else changes; the result is well tagged |
| SettingsDialog.MetricOptions | src/components/settings.tsx:151-173 | the two items offered are `cosine` then `l2`, exactly the database's domain |
| SettingsDialog.SetMetric | src/components/settings.tsx:137-149 | only the metric changes, to the chosen item |
| SettingsDialog.SetProvider | src/components/settings.tsx:181-186 | only the provider changes; the stored key is kept |
| SettingsDialog.SetApiKey | src/components/settings.tsx:213-218 | only the key changes, to the text as typed |
| SettingsDialog.ApplyKeepsTagged | src/components/settings.tsx:98-218 | every edit the form offers keeps the metric inside the database's domain |
| SettingsDialog.SetDatabaseKeepsMetricIff | src/components/settings.tsx:111-119 | the old metric survives a database choice exactly when it already was the new database's Cosine; an L2 choice is always lost |
| SettingsDialog.SetDatabaseKeepsMetricValueIff | src/components/settings.tsx:111-119 | the metric string sent survives a database choice exactly when it was `cosine` |
| SettingsDialog.SetDatabaseLastWins | src/components/settings.tsx:111-119 | two database choices in a row equal the last one alone |
| SettingsDialog.ProviderSwitchKeepsKey | src/components/settings.tsx:181-224 | switching provider and back restores the object, key included; meanwhile the key warning is on screen exactly when the new provider is OpenAI and the kept key fails the `sk-` test |
| SettingsDialog.ApiKeyWarningIff | src/components/settings.tsx:203-224 | any key is stored; its test fails exactly for a non-empty key without the `sk-` prefix, and the warning is on screen exactly when, in addition, OpenAI is the provider |
| SettingsDialog.Render | src/components/settings.tsx:85-233 | what the open dialog's content shows: "Loading" exactly for `null`, the form exactly for an object, with saving enabled exactly when no save is in flight |
| SettingsDialog.Settings.constructor | src/components/settings.tsx:24-26 | closed, not saving, object `null` |
| SettingsDialog.Settings.SetOpen | src/components/settings.tsx:74 | only the open flag changes |
| SettingsDialog.Settings.Load | src/components/settings.tsx:30-44 | a decoded body's `settings` member replaces the object, a throw keeps it; the saving flag is cleared |
| SettingsDialog.Settings.BeginSave | src/components/settings.tsx:46-47 | from the rendered form's enabled button: saving starts and the button is disabled; nothing else changes |
| SettingsDialog.Settings.EndSave | src/components/settings.tsx:55-66 | an ok response stores the sent object and closes the dialog; any other ending changes neither; the saving flag is cleared |
| SettingsDialog.Settings.Save | src/components/settings.tsx:46-67 | the whole save of the form's object from the enabled button: the dialog closes only on an ok response, and the saving flag is cleared |
| SettingsDialog.Settings.Edit | src/components/settings.tsx:98-218 | an offered input replaces the object by its edited copy and keeps it well tagged |
| LegacySettingsDialog.LegacyEditsAreOffered | src/components/settings.js:55-80 | the older dialog's edits are among the current dialog's, never choose `Domdata` and never touch the key |
| LegacySettingsDialog.LegacySettings.constructor | src/components/settings.js:10-11 | not saving, object `null` |
| LegacySettingsDialog.LegacySettings.Load | src/components/settings.js:12-28 | a decoded body's `settings` replaces the object, a throw keeps it; the saving flag is cleared |
| LegacySettingsDialog.LegacySettings.BeginSave | src/components/settings.js:29-30 | from the rendered form's enabled button: saving starts and disables the button |
| LegacySettingsDialog.LegacySettings.EndSave | src/components/settings.js:37-50 | only an ok response stores the sent object; the saving flag is cleared |
| LegacySettingsDialog.LegacySettings.Save | src/components/settings.js:29-51 | the whole save of the form's object from the enabled button: the object stays the sent one and the saving flag is cleared |
| LegacySettingsDialog.LegacySettings.Edit | src/components/settings.js:55-80 | an input replaces the object by its edited copy, keeps it well tagged and keeps the key |
| SettingsSchema.ParseSettings | backend/schemas/settings.py:33-40 | an unknown or missing `database` is `Invalid database type`; otherwise the payload is accepted exactly when `metric` and `llmProvider` are valid strings, and the record carries those strings |
| SettingsSchema.ParseDump | backend/schemas/settings.py:21-31 | parsing a dumped record gives the record back |
| SettingsSchema.ExtraMembersIgnored | backend/schemas/settings.py:21-29 | members other than the three fields do not change the outcome |
| Server.SettingsStore.constructor | backend/server.py:50-52 | the store holds the initial record |
| Server.SettingsStore.GetSettings | backend/server.py:54-55 | returns the stored record |
| Server.SettingsStore.SetSettings | backend/server.py:57-58 | replaces the stored record |
| Server.NewServerStore | backend/server.py:27-31 | the server starts with Postgres, Cosine and Ollama |
| Server.GetDbByType | backend/server.py:62-68 | a client exists exactly for `postgres` |
| Server.SetupDatabase | backend/server.py:75-82 | no client for a preflight; otherwise always the Postgres client |
| Server.MySQLSelectionFallsBack | backend/server.py:70-82 | a stored MySQL selection has no client and requests run against Postgres |
| Server.SettingsData | backend/server.py:94 | the `settings` member when present, the body itself otherwise; none when the body is not an object |
| Server.UpdateOutcome | backend/server.py:85-100 | 204 exactly for a preflight; 200 only with the parse of the body's settings object, and always when that parse succeeds |
| Server.UpdateSettings | backend/server.py:85-100 | the store is written exactly when the answer is 200, with the record echoed |
| Server.UpdateAcceptsWrappedAndBare | backend/server.py:94-98 | a dumped record is accepted wrapped in `settings` and bare, and echoed unchanged |
| Server.ScoreKeyFor | backend/server.py:187-192 | `cosine`, `l2` and `inner_product` each have their own score key; other metrics have none |
| Server.StoredMetricHasScoreKey | backend/server.py:172-192 | a stored metric yields a similarity or an L2 distance; the inner-product branch is unreachable |
| Server.ShapeResults | backend/server.py:180-202 | one result per row, in order, with id, title, content and the score under the metric's key; the metric is echoed as `metric_used`; the total is the count |
| Server.WinsAtKept | backend/server.py:236-237 | a document that does not beat the kept one leaves it kept |
| Server.WinsAtReplaced | backend/server.py:236-238 | a new id, or a strictly higher similarity, is kept |
| Server.DedupSpec | backend/server.py:232-240 | the finished dictionary has distinct ids, exactly the input's ids, for each id the first document with the highest similarity, in order of first appearance |
| Server.DedupById | backend/server.py:232-240 | the loop computes that dictionary's values |
| Server.Kept | backend/server.py:240 | the dictionary's values in insertion order |
| Rerank.Zip | backend/services/search_service.py:9 | pairs the i-th score with the i-th document up to the shorter list |
| Rerank.SortDescSorted | backend/services/search_service.py:10 | the sort orders by non-increasing score |
| Rerank.SortDescPermutes | backend/services/search_service.py:10 | the sort is a permutation |
| Rerank.SortDescStable | backend/services/search_service.py:10 | the pairs of each score keep their input order |
| Rerank.SliceLen | backend/services/search_service.py:12 | the length of `[:top_k]`, with a negative `top_k` counting from the end |
| Rerank.RerankScored | backend/services/search_service.py:9-12 | the kept pairs number `min(top_k, len)` for non-negative `top_k` |
| Rerank.RerankDocuments | backend/services/search_service.py:3-15 | the result has length `min(top_k, min(len(docs), len(scores)))` for non-negative `top_k`, and the slice length in general |
| Rerank.RerankOrdered | backend/services/search_service.py:10-13 | the documents come out by non-increasing score, each the kept pair's document with the score stripped |
| Rerank.RerankFromInput | backend/services/search_service.py:9-13 | every returned document is an input document, returned no more often than it occurs |
| Rerank.RerankStable | backend/services/search_service.py:10-12 | for each score, the kept documents with it are the first of the input's documents with it, in input order |
| Rerank.RerankTopK | backend/services/search_service.py:10-12 | the kept and dropped pairs together are the scored pairs, and no dropped pair scores higher than a kept one |
| QueryExpansion.LeadingDigits | backend/services/llm_service.py:22 | the run of digits at the start |
| QueryExpansion.StripNumberingSuffix | backend/services/llm_service.py:22 | what is removed is a prefix: the result is the rest of the input |
| QueryExpansion.StripNumberingPrefix | backend/services/llm_service.py:22 | digits, a dot and whitespace are removed exactly, up to the first other character |
| QueryExpansion.StripNumberingNoDigit | backend/services/llm_service.py:22 | a piece that does not start with a digit is unchanged |
| QueryExpansion.StripNumberingNoDot | backend/services/llm_service.py:22 | leading digits not followed by a dot (`2024 trends`, a bare `42`) are not a numbering: the piece is unchanged |
| QueryExpansion.CleanPiece | backend/services/llm_service.py:20-23 | a cleaned piece is trimmed and no longer than the piece |
| QueryExpansion.Expansions | backend/services/llm_service.py:19-25 | at most one added query per piece |
| QueryExpansion.ExpansionsAdded | backend/services/llm_service.py:21-25 | every added query is non-empty, trimmed and different from the original |
| QueryExpansion.ExpansionsAppend | backend/services/llm_service.py:19-25 | the expansions of concatenated pieces are the concatenated expansions, so the pieces' order is kept |
| QueryExpansion.ExpansionsComplete | backend/services/llm_service.py:21-25 | every passing piece contributes its cleaned text, duplicates included |
| QueryExpansion.ExpansionsSound | backend/services/llm_service.py:21-25 | nothing but the cleaned text of a passing piece is added |
| QueryExpansion.ExpansionsSnoc | backend/services/llm_service.py:19-25 | one more piece extends the expansions by its cleaned text when that is not empty and not the original query, and by nothing otherwise |
| QueryExpansion.ExpandedShape | backend/services/llm_service.py:17-27 | the original query comes first, followed only by added queries, at most one per piece |
| QueryExpansion.ExpandPieces | backend/services/llm_service.py:17-25 | the loop returns the original query followed by the expansions of the pieces |
| QueryExpansion.ExpandQueries | backend/services/llm_service.py:16-27 | the result is the original query followed by the expansions of the stripped reply's pieces, the original first and every other one non-empty, trimmed and different from it |
| Prompts.Block | backend/templates/prompts.py:34 | a block is `Document ID: `, the id, `\nContent: ` and the content, each at its place |
| Prompts.ContextEmptyIff | backend/templates/prompts.py:33-36 | the context is empty exactly when there are no documents, and otherwise starts with `Document ID: ` |
| Prompts.ContextAppend | backend/templates/prompts.py:33-36 | one more document adds a newline and its block at the end |
| Prompts.CreatePrompt | backend/templates/prompts.py:38-42 | the prompt is the fixed head, the query, `Context: `, the context and the closing newline and indentation, each at its place |
| Prompts.PromptInjective | backend/templates/prompts.py:38-42 | two equal prompts with queries of equal length have equal queries and equal contexts, and two equal prompts with equal contexts have equal queries (without such a condition a query containing `\n        Context: ` could be read two ways) |
| Helpers.ReplaceDisallowed | backend/utils/helpers.py:4 | same length; allowed characters stay; every other character becomes a blank |
| Helpers.Collapse | backend/utils/helpers.py:5 | no whitespace but blanks and no two in a row; no longer; same first character up to whitespace; no new characters |
| Helpers.CollapseCollapsed | backend/utils/helpers.py:5 | a collapsed text is left alone |
| Helpers.CollapseSqueeze | backend/utils/helpers.py:5 | `Collapse` equals a one-pass left-to-right reading of `\s+` → blank, which copies other characters and turns whitespace into a blank only after a non-whitespace character or at the start |
| Helpers.CollapseRun | backend/utils/helpers.py:5 | a maximal run of whitespace between non-whitespace characters (or the ends) becomes exactly one blank, and the text on each side is collapsed on its own |
| Helpers.CollapseCons | backend/utils/helpers.py:5 | a character that is not whitespace is copied in place |
| Helpers.CollapseNonSpace | backend/utils/helpers.py:5 | the characters other than whitespace are kept, all of them, in order |
| Helpers.StripNonSpace | backend/utils/helpers.py:6 | `strip` removes only whitespace: the other characters are kept in order |
| Helpers.CleanTextNonSpace | backend/utils/helpers.py:3-6 | after the disallowed characters are blanked, cleaning changes only whitespace: every other character is kept, in order |
| Helpers.CleanText | backend/utils/helpers.py:3-6 | the result is cleaned: only word characters, blanks and `.,!?`, no double whitespace, no whitespace at the ends; no longer than the input |
| Helpers.CleanTextFixedPoint | backend/utils/helpers.py:3-6 | a text is its own clean-up exactly when it is cleaned, so cleaning is idempotent |
| Helpers.CleanDocuments | backend/utils/helpers.py:9-10 | one cleaned text per document, in order |
| LlmProviders.DefaultModel | backend/services/llm_providers.py:64-72 | each provider's default model name, never empty |
| LlmProviders.NewOllama | backend/services/llm_providers.py:21-24 | an Ollama provider has the given model and no key at all |
| LlmProviders.NewKeyed | backend/services/llm_providers.py:31-53 | an OpenAI or Gemini provider is built exactly when the caller's or the environment's key is non-empty, and the client gets the caller's key if truthy, else the environment's |
| LlmProviders.KindOf | backend/services/llm_providers.py:63-76 | exactly `ollama`, `openai` and `gemini` select a provider |
| LlmProviders.GetLlmProvider | backend/services/llm_providers.py:60-76 | a built provider has a non-empty model name and the given temperature; Ollama has no key; the others have a non-empty client key |
| LlmProviders.ProviderCaseInsensitive | backend/services/llm_providers.py:61 | a name and its lower-case form give the same result |
| LlmProviders.ProviderSelection | backend/services/llm_providers.py:61-76 | the built provider is the one the lower-cased name selects; unsupported exactly for other names, naming the lower-cased input |
| LlmProviders.ModelNameDefaults | backend/services/llm_providers.py:64-72 | the given model name when it is non-empty, the provider's default otherwise |
| LlmProviders.KeyResolution | backend/services/llm_providers.py:34-36 | Ollama is always built; the others exactly when a key resolves, which the client gets; otherwise their own key error |
| Protocol.DraftJson | src/components/settings.tsx:52 | the sent object has exactly the draft's members, each carrying its field's value as a string: `textEncoder`, `database` and `metric` always, `llmProvider` unless it is `Domdata`, `openAiApiKey` exactly when the draft has a key; no other member |
| Protocol.SaveOutcomeOf | src/components/settings.tsx:55 | `response.ok` holds exactly for a 2xx answer |
| Protocol.SaveAcceptedIff | backend/server.py:85-100 | a saved object is accepted exactly when its provider is declared; a `Domdata` save is answered 400; an accepted one keeps database, metric string and provider |
| Protocol.SaveStoresDeclared | backend/server.py:94-98 | a declared object is stored as itself without the text encoder |
| Protocol.SaveThroughServer | src/components/settings.tsx:46-67 | a save of the form's object changes the backend store and closes the dialog together, both exactly when the provider is declared |
| Protocol.LoadRouteMissing | backend/server.py:85-205 | the server routes `/update-settings` but not `/load-settings` |
| Protocol.MountDialog | src/components/settings.tsx:69-71 | after mounting, the failed load leaves the object `null` and the dialog shows "Loading", with no form and no save button |

## Left out

- Network, Flask routing, React scheduling and React's rendering mechanics are not modelled. `SettingsDialog.Render` describes what the content of the open dialog shows; the content is mounted only while the dialog is open (settings.tsx:74-85), which `Render` does not track. HTTP outcomes and decoded bodies are inputs. The asynchronous `saveSettings` is split into `BeginSave` and `EndSave`.
- The language model is not modelled. The reply to the expansion prompt is an input. The expansion prompt template (`create_template`, prompts.py:5-27) and `call_llm` are not modelled.
- The cross-encoder that scores documents for reranking is not modelled. Its scores are an input.
- The text encoders, the database clients (`database.py`, `db.py`), the crawler and `text_service.py` are not part of this model. Neither are the `/crawl`, `/add` and the orchestration of `/prompt`.
- Scores and similarities are floating point in the source and `int` here. NaN is not modelled.
- Temperatures are `real` here; the source uses floats.
- Text.IsDigit, Text.IsWordChar, Text.Lower: `\d`, `\w` and `str.lower()` are limited to ASCII. Python's versions also cover other Unicode letters and digits.
- Prompts.PromptDoc: a document's id is taken as already rendered text (`str(doc.get('id'))`). A missing id or content, which Python renders as `None`, is not modelled.
- Rerank.SortDesc: the in-place `list.sort` is modelled as a pure stable insertion sort on values. The mutation of the local list is not observable outside the function.
- SettingsDialog.Slot: the `settings` member of a decoded load body is modelled as `null`, absent (`undefined`) or a complete settings object. The load stores any JSON value unvalidated; a partial object, an object with unknown fields, a string, a number or an array is not modelled, nor how the form would render it.
- The 400 answer of `/update-settings` is modelled without its `message` text; `UpdateResponse` keeps only the status.
- LlmProviders.NewKeyed: the client objects (`ChatOpenAI`, `ChatGoogleGenerativeAI`, `OllamaLLM`) are reduced to the values they are built with.
