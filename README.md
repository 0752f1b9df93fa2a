# Open-Assistant core pieces, modelled in Dafny

This project models seven small pieces of the Open-Assistant repository and
proves properties of each:

- **Browser widget chunker** (`chrome-bot/content.js`): `splitText` splits
  the page text at single spaces. It packs the words greedily into chunks under a
  character budget. `ask` sends the first chunk with the question.
- **Plugin agent utilities** (`inference/worker/chat_chain_utils.py`):
  - the Jaro `similarity` of two tool names;
  - `truncate_str`, which closes an opening bracket;
  - `use_tool`, which picks the first tool whose name is similar enough;
  - `extract_tool_and_input`, which reads the tool and its input out of a model reply;
  - `process_response`, which turns an HTTP response into an observation.
- **Chat configuration form** (`website/src/components/Chat/ChatConfigForm.tsx`):
  - preset selection and the plugin lock;
  - saving custom presets;
  - the one-shot hydration from the local cache, with plugin de-duplication by URL;
  - the per-parameter on/off switch.
- **Draft viewer** (`website/src/components/Chat/ChatAssistantDraftViewer.tsx`):
  the loading and completion flags, the expanded draft, the dividers and the
  work-parameter panel.
- **Cursor-paged user list** (`backend/oasst_backend/api/v1/users.py`):
  `get_users_cursor` with `split_cursor`, and the `prev`/`next` cursors it
  returns.
- **Tree export** (`backend/export.py`):
  - `validate_args`;
  - the state and deleted filters `main` derives;
  - `fetch_tree_ids` and `fetch_tree_messages` as filters over the tables;
  - `export_trees`, including its `prompts_only` step.
- **Ranking page** (`website/src/pages/evaluate/rank_assistant_replies.tsx`):
  - the task queue and the ranking;
  - `submitResponse` and `fetchNextTask`;
  - the fetch and update callbacks and what the page renders.

Code that only computes a value becomes functions and lemmas. Code that updates state becomes classes with
`modifies` frames:

- `ChatConfig.ChatConfigForm`
- `DraftViewer.Viewer`
- `RankPage.RankAssistantReplies`
- `Export.ExportArgs`, which `validate_args` updates in place.

The Jaro passes are methods over two arrays. They are proved to compute a
reference definition (`Jaro.MatchRows`, `Jaro.Transpositions`).

Files:

- `wrappers.dfy`, `collections.dfy`, `strings.dfy`: `Option`/`Result`, first-match
  search and filtering, and the string operations the sources use
  (`split`, `join`, `in`, `strip`/`trim`, `replace`, ASCII `lower`).
- `uuids.dfy`: the canonical text form of a UUID and its parser.
- `content_script.dfy`, `similarity.dfy`, `chat_chain_utils.dfy`,
  `chat_config_form.dfy`, `draft_viewer.dfy`, `users_api.dfy`, `export.dfy`,
  `rank_page.dfy`: one module per source file.

## Model

| member | source | states |
|---|---|---|
| ContentScript.SplitText | chrome-bot/content.js:13-27 | The chunks are those of the loop, run as the fold `SplitChunks`. They concatenate to the text plus one trailing space. Only the first chunk can be empty, and it is empty exactly when the first word alone reaches the budget. Every chunk ends in a space and is within the budget or a single over-long word with its space. Each chunk but the last was closed because its length plus the next chunk's first word reaches the budget. |
| ContentScript.PackStep | chrome-bot/content.js:17-24 | One loop turn keeps the packing invariant, whether the word joins the current chunk or starts a new one. |
| ContentScript.GreedyExtend | chrome-bot/content.js:18-19 | A word that fits joins the open chunk, and every closed chunk keeps its reason for closing. |
| ContentScript.GreedyBreak | chrome-bot/content.js:20-22 | A word that does not fit closes the open chunk, which then records that the word did not fit, and starts the next chunk. |
| ContentScript.PackFoldGreedy | chrome-bot/content.js:17-24 | After any number of words of a space-split text, every closed chunk was closed by a word that did not fit. |
| ContentScript.SplitChunksGreedy | chrome-bot/content.js:13-27 | The chunks of `splitText` form the greedy chunking: the round trip, the budget, and the next word not fitting at every break. |
| ContentScript.ShortWordsShareAChunk | chrome-bot/content.js:13-27 | `splitText("a b", 10)` is the single chunk `"a b "`. |
| ContentScript.FirstChunkIsGreedy | chrome-bot/content.js:13-27 | The first chunk is a prefix of the text ending at a word boundary and within the budget. It is empty exactly when the first word alone reaches the budget. When text follows it, the next word would not have fit. |
| ContentScript.SpacedWordsOfText | chrome-bot/content.js:15 | The words of `text.split(' ')`, each followed by one space, re-join to the text plus one space. |
| ContentScript.FlattenStartsWithHead | chrome-bot/content.js:25-26 | The first chunk is a prefix of all chunks concatenated. |
| ContentScript.RemotePrompt | chrome-bot/content.js:76-84 | The prompt sent is the first chunk of `splitText(text, 5000)` followed by the question, as `FirstChunkIsGreedy` characterises it. So it is a prefix of the page text (plus its trailing space) followed by the question, at most 5000 characters longer than the question. |
| Jaro.Similarity | inference/worker/chat_chain_utils.py:25-59 | The two array passes compute the reference Jaro similarity. The result lies in [0, 1]. It is 1 for equal strings. For different strings it is 0 exactly when no character has an equal partner inside its matching window. |
| Jaro.MarkRow | inference/worker/chat_chain_utils.py:36-42 | One row of the matching pass finds the first unmarked equal character inside the window. It marks exactly that position and the row, or nothing when there is none. |
| Jaro.MarkMatches | inference/worker/chat_chain_utils.py:31-42 | After the first pass, the arrays and the match count equal the reference state `MatchRows` after all rows. |
| Jaro.FirstFree | inference/worker/chat_chain_utils.py:36-42 | The search result is the first position in the window whose character is equal and unmarked, or -1 when the window has none. |
| Jaro.MatchRowsInvariant | inference/worker/chat_chain_utils.py:35-42 | After every row, the marks are 0/1, both arrays hold `match` marks, and rows not yet visited are unmarked. A positive count means some character has an equal partner in its window. A row left unmarked found every equal character in its window already taken. |
| Jaro.MatchCountsAgree | inference/worker/chat_chain_utils.py:35-45 | The matched characters of the two strings are equally many, so the second pass pairs them one to one. |
| Jaro.FinalMarks | inference/worker/chat_chain_utils.py:35-45 | Both final arrays are 0/1 and hold as many marks as the match count. |
| Jaro.NextMarked | inference/worker/chat_chain_utils.py:53-54 | While a marked position remains, the inner `while` stops inside `ts2` at the next marked position and skips no mark. |
| Jaro.CountTranspositions | inference/worker/chat_chain_utils.py:47-57 | `t` is the number of positions at which the matched characters of the two strings, read in order, differ. |
| Jaro.SimilarityRange | inference/worker/chat_chain_utils.py:25-59 | For different strings the similarity lies in [0, 1]. It is 0 exactly when no character matches inside its window. |
| Jaro.SimilarityReflexive | inference/worker/chat_chain_utils.py:26-27 | A name is fully similar to itself. |
| Jaro.JaroRatioBounds | inference/worker/chat_chain_utils.py:58-59 | With at least one match and at most as many transpositions as matches, the ratio lies in (0, 1]. |
| ChatChainUtils.Closing | inference/worker/chat_chain_utils.py:86-93 | The suffix is `...)`, `...]` or `...}` exactly when the text opens with `(`, `[` or `{`. Otherwise it is `...`. |
| ChatChainUtils.TruncateStr | inference/worker/chat_chain_utils.py:84-94 | A text within the limit is returned unchanged. A longer one becomes its first `max_length` characters followed by the closing suffix, at most 4 characters over the limit. |
| ChatChainUtils.TruncateClosesBracket | inference/worker/chat_chain_utils.py:84-94 | A truncated text that opened with a bracket still opens with it, ends with its partner and is exactly 4 characters over the limit. |
| ChatChainUtils.TruncateTwice | inference/worker/chat_chain_utils.py:84-94 | Truncating a truncated text again to the same positive length returns it unchanged. With length 0 the second truncation turns it into `...`. |
| ChatChainUtils.UseTool | inference/worker/chat_chain_utils.py:97-101 | The tool called is the first, in list order, whose name is more than 0.75 similar to the requested one. It receives the input unchanged. When no tool is similar enough, the result is the exact error text. |
| ChatChainUtils.UseToolIsFirstMatch | inference/worker/chat_chain_utils.py:97-101 | The choice of `use_tool` equals a first-match search of the tool list. |
| ChatChainUtils.ExactNameIsChosen | inference/worker/chat_chain_utils.py:97-101 | A tool whose name is exactly the requested name always qualifies. |
| ChatChainUtils.ExtractToolAndInput | inference/worker/chat_chain_utils.py:65-78 | The reply is stripped and its code fences are removed. If it contains `<prefix>:`, the result is the prefix and the stripped text after the last marker, which holds no marker. Otherwise, without an action match, the input is the stripped text after the last observation marker (free of it) or the whole text. With an action match, the tool is the stripped first group with its quotes removed, and the input is the stripped second group. |
| ChatChainUtils.StripTwiceSpace | inference/worker/chat_chain_utils.py:78 | The trailing `.strip(" ")` after `.strip()` removes nothing. |
| ChatChainUtils.PlainReplyIsFinalAnswer | inference/worker/chat_chain_utils.py:72-76 | A reply with no marker, no action and no observation yields the prefix and the cleaned reply. |
| ChatChainUtils.MarkerInputFollowsMarker | inference/worker/chat_chain_utils.py:66-68 | The input read is exactly what follows the last marker in the cleaned reply, stripped. |
| ChatChainUtils.ProcessResponse | inference/worker/chat_chain_utils.py:141-151 | A status other than 200 gives the error text with the body. A missing, empty or short `null` body gives the empty-response error. A good body of at most 2048 characters is passed on verbatim, and a longer one is `truncate_str(text, RESPONSE_MAX_LENGTH)`. |
| ChatChainUtils.ProcessResponsePassesShortBody | inference/worker/chat_chain_utils.py:150-151 | A good body of at most 2048 characters is passed on verbatim. |
| ChatChainUtils.ProcessResponseTruncatesLongBody | inference/worker/chat_chain_utils.py:150-151 | A good body over 2048 characters becomes its first 2048 characters and the closing suffix its first character selects, at most 4 characters over the limit, ending with the partner of an opening bracket. |
| ChatChainUtils.NullCheckIgnoresCase | inference/worker/chat_chain_utils.py:147-148 | A body under 10 characters that contains `null` in any letter case is an empty response. |
| ChatConfig.FindPresetName | website/src/components/Chat/ChatConfigForm.tsx:90-94 | The name is that of the first preset whose parameters equal the form. It is `__custom__` when none does. |
| ChatConfig.ModelNamed | website/src/components/Chat/ChatConfigForm.tsx:239 | The model found is one with that name, and one is found whenever the list has one. |
| ChatConfig.PresetNamed | website/src/components/Chat/ChatConfigForm.tsx:121 | The parameters are those of the first preset with that name. There are none exactly when no preset has it. |
| ChatConfig.CustomPresetNamed | website/src/components/Chat/ChatConfigForm.tsx:275 | The configuration is that of the first custom preset with that name. There is none exactly when no custom preset has it. |
| ChatConfig.SelectSavedPresetAsWrittenThrows | website/src/components/Chat/ChatConfigForm.tsx:117-127 | As written, choosing a saved `$$` preset in the dropdown finds no model preset of that name when no model preset starts with `$$`, so the `!` throws. |
| ChatConfig.PresetConfig | website/src/components/Chat/ChatConfigForm.tsx:117-127 | The corrected lookup agrees with the source whenever the model has the preset, and otherwise takes the saved custom preset. It finds a preset exactly when the model or the saved presets have that name. |
| ChatConfig.ParametersDisabled | website/src/components/Chat/ChatConfigForm.tsx:196-199 | The parameter fields are disabled exactly when the selection is neither `__custom__` nor a `$$` preset. `FieldsEditableFor` and the form's methods state which selections that gives. |
| ChatConfig.FieldsEditableFor | website/src/components/Chat/ChatConfigForm.tsx:196-199 | The parameter fields are disabled for `k50-Plugins` and editable for `__custom__` and for every saved `$$` name, where the save button is hidden. |
| ChatConfig.SaveButtonShown | website/src/components/Chat/ChatConfigForm.tsx:213-215 | The save button shows exactly for `__custom__`, and then the fields are enabled. |
| ChatConfig.TrimmedName | website/src/components/Chat/ChatConfigForm.tsx:390-393 | No name is taken when the input is missing or blank. A name taken is the input with JavaScript white space trimmed at both ends, and it is non-empty. |
| ChatConfig.SaveAsWrittenDuplicates | website/src/components/Chat/ChatConfigForm.tsx:389-406 | As written, typing `foo` while `$$foo` is stored saves a second `$$foo`. |
| ChatConfig.SaveDecision | website/src/components/Chat/ChatConfigForm.tsx:389-406 | A blank name is ignored. A name whose stored form exists is refused. Otherwise the preset saved is `$$` plus the name with the current form, and no stored preset shares its name. |
| ChatConfig.SaveKeepsNamesDistinct | website/src/components/Chat/ChatConfigForm.tsx:140-147 | With the corrected check, appending a saved preset keeps the custom preset names distinct. |
| ChatConfig.DedupByUrlCorrect | website/src/components/Chat/ChatConfigForm.tsx:247-253 | The de-duplicated plugin list has distinct URLs and the same URL set as the input. Each entry is the last one given for its URL, as `Map.set` keeps it. |
| ChatConfig.DedupByUrlKeepsFirstOrder | website/src/components/Chat/ChatConfigForm.tsx:247-253 | The de-duplicated list keeps the insertion order of a `Map`: its entries appear in the order in which their URLs first occur in the input. |
| ChatConfig.NotBuiltIn | website/src/components/Chat/ChatConfigForm.tsx:250 | The kept cached plugins are the cached list filtered, in order, to the entries whose URL is not a built-in one. Their URLs are the cached ones minus the built-in ones. |
| ChatConfig.HydratedPluginsCorrect | website/src/components/Chat/ChatConfigForm.tsx:245-255 | The hydrated plugin list starts with the built-ins and covers every cached URL. Each entry after the built-ins has a URL that is not built in and is the last cached entry with that URL. Its URLs are distinct whenever the built-ins' are. |
| ChatConfig.HydrationTarget | website/src/components/Chat/ChatConfigForm.tsx:261-290 | Selected plugins win: they apply the base model's `k50-Plugins` parameters, if any, and select nothing. Next `__custom__` restores the hand-edited config and selects it. A `$$` name applies the first custom preset with that name. Any other name applies the base model's preset with that name. Parameters are applied exactly when the cached name is selected. |
| ChatConfig.BaseModel | website/src/components/Chat/ChatConfigForm.tsx:263 | The base model is the cached model when the model list knows it, else the first model. It is absent only when the cached model is unknown and there is no model at all. |
| ChatConfig.HydrationAsWrittenDropsCustomPreset | website/src/components/Chat/ChatConfigForm.tsx:274-279 | As written, a cached selection of a custom preset is never restored, even when the cache holds that preset. The corrected lookup restores it. |
| ChatConfig.HydrationTargetCorrected | website/src/components/Chat/ChatConfigForm.tsx:257-290 | With the lookup among the restored presets, a cached `$$` selection is restored exactly when the cached presets hold it. |
| ChatConfig.CachedFields | website/src/components/Chat/ChatConfigForm.tsx:239-262 | Hydration writes the cached model exactly when it is known, and the selected plugins exactly when there are some. Otherwise those fields keep their values, and no other field changes. |
| ChatConfig.SwitchValue | website/src/components/Chat/ChatConfigForm.tsx:318-324 | Switching on sets the slider maximum, which is positive. Switching off sets `null`. |
| ChatConfig.ShowSlider | website/src/components/Chat/ChatConfigForm.tsx:326 | The slider is hidden exactly when the value is `null`. |
| ChatConfig.SwitchShowsSlider | website/src/components/Chat/ChatConfigForm.tsx:318-326 | After the switch, the slider shows exactly when the switch is on. |
| ChatConfig.ChatConfigForm.constructor | website/src/components/Chat/ChatConfigForm.tsx:107-115 | The first render selects `findPresetName` of the initial values, with no lock, no custom presets and the built-in plugins. |
| ChatConfig.ChatConfigForm.ResetParameters | website/src/components/Chat/ChatConfigForm.tsx:96-100 | The form becomes the old form overridden by the preset's parameters. No other field changes. |
| ChatConfig.ChatConfigForm.HandlePresetChange | website/src/components/Chat/ChatConfigForm.tsx:117-127 | `__custom__` only changes the selection. Any other name runs the corrected lookup `PresetConfig`: the model's preset, or else a saved custom preset, applies its parameters and is selected. A name found in neither throws and changes nothing. After selecting `__custom__` or a `$$` preset the fields are editable. |
| ChatConfig.ChatConfigForm.ApplyPluginLock | website/src/components/Chat/ChatConfigForm.tsx:129-138 | An enabled plugin applies `k50-Plugins`, selects it, locks the selection and disables the fields. With the model's `k50-Plugins` preset, that preset's parameters are applied. Without an enabled plugin, the lock is released and nothing else changes. |
| ChatConfig.ChatConfigForm.SavePreset | website/src/components/Chat/ChatConfigForm.tsx:140-147 | Saving runs the corrected duplicate check of `SaveDecision`. A saved preset is appended and selected, which leaves the fields editable and hides the save button. A refused or ignored name changes nothing. Distinct custom preset names stay distinct. |
| ChatConfig.ChatConfigForm.ToggleParameter | website/src/components/Chat/ChatConfigForm.tsx:318-324 | Only the switched parameter changes, and the slider then shows exactly when it is on. |
| ChatConfig.ChatConfigForm.Hydrate | website/src/components/Chat/ChatConfigForm.tsx:227-291 | Hydration runs the corrected lookup of `HydrationTargetCorrected`. It acts once, and a missing cache changes nothing. Otherwise it restores the presets, plugins, model and selected plugins, then applies the target of the precedence cascade. |
| ChatConfig.ChatConfigForm.RestoreCache | website/src/components/Chat/ChatConfigForm.tsx:239-262 | The form, custom presets and plugin list become what the cache restores, and nothing else changes. |
| ChatConfig.ChatConfigForm.ApplyHydration | website/src/components/Chat/ChatConfigForm.tsx:261-290 | The chosen parameters override the form. The cached name is selected only when the cascade selects it. |
| DraftViewer.AllEmpty | website/src/components/Chat/ChatAssistantDraftViewer.tsx:12-15 | The viewer is loading exactly when every streamed draft is empty, which includes there being none. |
| DraftViewer.AllComplete | website/src/components/Chat/ChatAssistantDraftViewer.tsx:17-24 | The drafts are complete exactly when the list is present and every state is `complete`, `aborted_by_worker`, `cancelled` or `timeout`. |
| DraftViewer.Toggle | website/src/components/Chat/ChatAssistantDraftViewer.tsx:26-28 | Toggling the expanded draft collapses all. Toggling any other draft expands it. |
| DraftViewer.ToggleTwice | website/src/components/Chat/ChatAssistantDraftViewer.tsx:26-28 | Toggling a draft twice restores the state when that draft or none was expanded. When another draft was expanded, it leaves all collapsed. |
| DraftViewer.DividerCount | website/src/components/Chat/ChatAssistantDraftViewer.tsx:118 | `n` drafts are separated by `n - 1` dividers, and none follows the last. |
| DraftViewer.ShowsWorkParameters | website/src/components/Chat/ChatAssistantDraftViewer.tsx:130 | The work parameters show exactly when all drafts are complete, the spinner is gone and the first draft has parameters. `WorkParametersNeedFinishedDrafts` states it over the drafts themselves. |
| DraftViewer.WorkParametersNeedFinishedDrafts | website/src/components/Chat/ChatAssistantDraftViewer.tsx:17-24 | With `isComplete` from the completion effect, the work parameters show exactly when nothing is loading, the first draft has parameters and every draft has ended. |
| DraftViewer.StreamingDraftHidesParameters | website/src/components/Chat/ChatAssistantDraftViewer.tsx:130 | A finished first draft's parameters stay hidden while a later draft streams, and show once it has timed out. |
| DraftViewer.FinishedDraftsAreComplete | website/src/components/Chat/ChatAssistantDraftViewer.tsx:17-24 | Drafts that ended in each of the four terminal states are complete. |
| DraftViewer.StreamingDraftIsIncomplete | website/src/components/Chat/ChatAssistantDraftViewer.tsx:17-24 | A draft still streaming keeps the set incomplete. |
| DraftViewer.Viewer.constructor | website/src/components/Chat/ChatAssistantDraftViewer.tsx:6-10 | The first render is neither loading nor complete, draft 0 is expanded, and no work parameters show. |
| DraftViewer.Viewer.OnStreamedDrafts | website/src/components/Chat/ChatAssistantDraftViewer.tsx:12-15 | New drafts set `isLoading` to whether all of them are empty. While loading, no work parameters show. |
| DraftViewer.Viewer.OnDraftMessages | website/src/components/Chat/ChatAssistantDraftViewer.tsx:17-24 | New draft messages set `isComplete` to whether all of them have ended. Work parameters show only if every draft has ended, and a draft that has not ended hides them. |
| DraftViewer.Viewer.ToggleExpand | website/src/components/Chat/ChatAssistantDraftViewer.tsx:26-28 | After the button, draft `index` is expanded exactly when it was not before. |
| UsersApi.SplitAtFirstDollar | backend/oasst_backend/api/v1/users.py:90 | Two parts come back exactly when the text holds a `$`. The text is then the first part, `$` and the rest, and the first part holds no `$`. |
| UsersApi.SplitCursor | backend/oasst_backend/api/v1/users.py:87-94 | No cursor or an empty one gives no bounds. A head of exactly 36 characters before the first `$` gives the rest as key and the head parsed as the id, or raises when it is not a UUID. Any other cursor is the whole key with no id. |
| UsersApi.SplitCursorText | backend/oasst_backend/api/v1/users.py:87-94 | A cursor built from a user's id and key splits back into that key and id, even when the key holds `$`. |
| UsersApi.PageCursors | backend/oasst_backend/api/v1/users.py:113-133 | An empty page has no cursors. Otherwise `prev` is built from the first item and `next` from the last, with the key of the sort order. |
| UsersApi.Bounds | backend/oasst_backend/api/v1/users.py:99-100 | The query succeeds exactly when both cursors split. `lt` gives the upper bounds and `gt` the lower ones. |
| UsersApi.GetUsersCursor | backend/oasst_backend/api/v1/users.py:75-137 | An unsupported sort key raises with its message. A supported one fails only when a cursor fails to split. Otherwise the page holds the ordered query's items, ascending, with `prev`/`next` from its first and last item. |
| UsersApi.NextCursorResumesAfterLast | backend/oasst_backend/api/v1/users.py:113-115 | Passing `next` back as `gt` gives the last shown user's key and id as the lower bounds. |
| UsersApi.PrevCursorEndsAtFirst | backend/oasst_backend/api/v1/users.py:113-115 | Passing `prev` back as `lt` gives the first shown user's key and id as the upper bounds. |
| Uuids.ParseUuidText | backend/oasst_backend/api/v1/users.py:93 | `UUID(str(u)) == u`: the canonical text of a UUID parses back to it. |
| Uuids.UuidTextHasNoDollar | backend/oasst_backend/api/v1/users.py:114 | The text of a UUID holds no `$`, so it can lead a cursor. |
| Export.ParseTreeState | backend/export.py:116-120 | A parsed state has exactly that name. A text that no state names is refused. |
| Export.ParseStateName | backend/export.py:116-120 | Every state name parses back to its state, and `all` names no state. |
| Export.FetchTreeIds | backend/export.py:14-20 | The rows are exactly the tree rows in the requested state, or all of them without a filter. |
| Export.FetchIsOneFilter | backend/export.py:23-41 | The chain of optional query filters selects the same list, in order, as one filter by the conjunction of the set conditions. |
| Export.FetchTreeMessagesSelects | backend/export.py:30-41 | A message is returned exactly when it matches every filter whose argument is set: tree, user, deleted flag, root only. |
| Export.TreeMessagesBelongToTree | backend/export.py:61-69 | Every message fetched for a tree row belongs to that tree and passes the deleted and prompt filters. |
| Export.Pruned | backend/export.py:73-74 | With `prompts_only` the prompt loses its replies and keeps its identity. Otherwise the tree is unchanged. |
| Export.BuildTrees | backend/export.py:71-75 | The exported trees are, in row order, each row's built tree, pruned when `prompts_only`. |
| Export.ExportTrees | backend/export.py:44-77 | With a user, that user's filtered messages are written as they are. Otherwise one tree per selected row is written, built from that tree's filtered messages, with the file and compression passed through. |
| Export.ResolveStateFilter | backend/export.py:135-139 | No `--state` means ready for export, and `all` means no filter. Any other name is its state, or raises when no state has that name. |
| Export.ResolveDeleted | backend/export.py:141-145 | `--deleted-only` selects only deleted messages, `--include-deleted` selects all, and neither excludes deleted ones. |
| Export.ExportArgs.constructor | backend/export.py:96-125 | The parsed flags are stored as given, before compression is decided. |
| Export.ExportArgs.ValidateArgs | backend/export.py:80-90 | `--deleted-only` implies `--include-deleted`. Compression is on exactly for an export file whose name contains `.gz`. A non-empty `--state` together with `--user` raises the exact error. |
| Export.Run | backend/export.py:131-156 | `validate_args` runs first: `--include-deleted` follows `--deleted-only`, and compression is on exactly for an export file name containing `.gz`. A state with a user raises the `ValueError` and ends the run. Otherwise the run is `Export.ExportValidated` on the updated flags, so every clause stated there holds for the run. The run fails exactly when the state is given with a user, the state name is unknown, or the user id is malformed. A successful run writes to the given file with that compression flag. |
| Export.ExportValidated | backend/export.py:135-156 | An unknown state name is refused, then a malformed user id raises, and the run fails in exactly those two cases. A successful run writes to the given file with the given compression. A user run writes that user's messages under the resolved deleted filter. A run without a user writes one exported tree per tree row in the resolved state (ready for export by default, any state for `all`), in row order. |
| RankPage.RankingUpdate | website/src/pages/evaluate/rank_assistant_replies.tsx:42-50 | The posted update carries the task's id, the type `message_ranking` and the ranking verbatim. |
| RankPage.Render | website/src/pages/evaluate/rank_assistant_replies.tsx:60-75 | The spinner shows while loading. Otherwise the page says no tasks were found exactly when the queue is empty, and else ranks the first task's replies with its conversation. |
| RankPage.AppendKeepsShownTask | website/src/pages/evaluate/rank_assistant_replies.tsx:35-40 | Appending a task returned by an update leaves the shown replies and conversation as they were. |
| RankPage.FetchedTaskIsShown | website/src/pages/evaluate/rank_assistant_replies.tsx:23-27 | After a fetch succeeds, the fetched task is the one shown. |
| RankPage.RankAssistantReplies.constructor | website/src/pages/evaluate/rank_assistant_replies.tsx:16-21 | The page starts with no tasks, an empty ranking and no requests. |
| RankPage.RankAssistantReplies.OnTasksChanged | website/src/pages/evaluate/rank_assistant_replies.tsx:29-33 | An empty queue asks for a task once, and a non-empty one asks for none. |
| RankPage.RankAssistantReplies.OnFetchSuccess | website/src/pages/evaluate/rank_assistant_replies.tsx:23-27 | The queue becomes exactly the fetched task, which is then shown. |
| RankPage.RankAssistantReplies.OnUpdateSuccess | website/src/pages/evaluate/rank_assistant_replies.tsx:35-40 | The returned task joins the end of the queue, and the first task stays first. |
| RankPage.RankAssistantReplies.SetRanking | website/src/pages/evaluate/rank_assistant_replies.tsx:90 | The ranking becomes the order the list reports. |
| RankPage.RankAssistantReplies.SubmitResponse | website/src/pages/evaluate/rank_assistant_replies.tsx:42-50 | Exactly one update is posted, for the given task, with the current ranking. |
| RankPage.RankAssistantReplies.FetchNextTask | website/src/pages/evaluate/rank_assistant_replies.tsx:52-55 | Skipping clears the ranking and asks for one more task. |

## Left out

- Browser I/O: `retrieveText`, the DOM, `fetch` and the display of the reply are left out. `RemotePrompt` keeps only the prompt text that `remote_ask` posts.
- JavaScript string lengths count UTF-16 code units. Here a string is a sequence of Unicode characters, so the budget test counts characters.
- ChatChainUtils.TruncateStr: takes a non-negative `max_length`. Python's slicing with a negative length is not modelled. The callers pass 128, 256, 512 and `RESPONSE_MAX_LENGTH`, and the default is 1024, all non-negative.
- ChatChainUtils.ExtractToolAndInput: the `Action: ... Action Input:` regular expression is a parameter. Its groups are not derived from the pattern. `OBSERVATION_SEQ` is also a parameter, taken non-empty.
- ChatChainUtils.UseTool: calling `tool.func` is outside the model. The outcome names the tool to call and its input.
- ChatChainUtils.NullCheckIgnoresCase: `lower()` is modelled on ASCII letters only. No other character lowers to a letter of `null`.
- Jaro: the ratio is computed in exact real arithmetic. Python's floating point can differ in the last bits, which matters only for a similarity within rounding of 0.75.
- Jaro.MarkMatches: increments the match count after the inner search returns rather than inside the inner loop. The count is the same.
- The rest of `RequestsForLLM` (`run_request`, prompt composition, plugin loading), the tokenizer lock and the logging are left out.
- Database queries are sequences of rows, in the order the database returns them. SQL ordering and sessions are left out.
- `tree_export` is not part of this model. Building a tree from its messages is a parameter. An exported tree keeps only its id, its state and its prompt node's id and replies.
- Export.ParseTreeState: the state names are those listed in the help text of `--state` (backend/export.py:119). The `State` enum imported at backend/export.py:9 is not part of this model.
- Writing the output (`write_messages_to_file`, `write_trees_to_file`, `Path`, standard output) and the logger warning in `validate_args` are left out. The output is a value.
- Uuids.ParseUuid: accepts only the canonical hyphenated form, in either case. Python's `UUID()` also accepts braces, a `urn:uuid:` prefix, and the 32 digits with hyphens at any positions or none. So a 36-character cursor head with misplaced hyphens is a valid id in the source and raises here.
- FastAPI query validation (`max_count` bounds, `sort_key` length), authentication and the database session of `get_users_cursor` are left out. The two ordered queries are parameters.
- React rendering is left out. Effects and handlers are methods on the component's state, and toasts are outcome values. The `!` lookup that throws is an `ok = false` result that changes nothing.
- SWR caching and revalidation are left out. `isLoading` is a parameter of rendering. Each `mutate()` is counted in `fetchRequests`, and each `trigger` is recorded in `posted`.
- A task's `task.replies` and `task.conversation.messages` are flattened to two fields.
- ChatConfig.ChatConfigForm.constructor: requires the form's model to be one of `modelInfos`. The source asserts this with the `!` at tsx:109 and throws while rendering when it fails; that throw is not modelled as an `ok = false` result.
- ChatConfig.HydrationTarget: with no model at all the source throws on `modelInfos[0]`. The model restores no parameters and selects nothing instead.
- ChatConfig.ChatConfigForm.HandlePresetChange: runs the corrected lookup (`PresetConfig`), which also finds saved custom presets. The source searches only the model's presets (tsx:121) and throws for a saved one, as `SelectSavedPresetAsWrittenThrows` states.
- ChatConfig.ChatConfigForm.ApplyPluginLock: inherits that lookup. It differs from the source only if a saved preset is named `k50-Plugins`, which a `$$` name never is.
- ChatConfig.ChatConfigForm.SavePreset: runs the corrected duplicate check (`SaveDecision`), not the as-written one (`SaveDecisionAsWritten`, tsx:395). The as-written behaviour is stated by `SaveAsWrittenDuplicates`.
- ChatConfig.ChatConfigForm.Hydrate: runs the corrected custom preset lookup (`HydrationTargetCorrected`), not the as-written one (`HydrationTargetAsWritten`, tsx:275). The as-written behaviour is stated by `HydrationAsWrittenDropsCustomPreset`.
- Saving the configuration cache (`ChatConfigSaver`), the form's layout and labels, and the sliders' minimum, step and precision are left out. Only the slider maximum is kept, because the switch uses it.

## Findings

| source | as written | input that shows it | evidently intended | confidence | as-written member | corrected member |
|---|---|---|---|---|---|---|
| website/src/components/Chat/ChatConfigForm.tsx:395 | The duplicate check compares the trimmed typed name with the stored names. Every stored name carries the `$$` prefix, so the check never matches a name typed before. | Stored presets `[$$foo]`, typed `foo`: a second preset named `$$foo` is saved. | Compare `$$` plus the typed name, so custom preset names stay distinct. | not executed | ChatConfig.SaveAsWrittenDuplicates | ChatConfig.SaveKeepsNamesDistinct |
| website/src/components/Chat/ChatConfigForm.tsx:121 | The dropdown lists the saved custom presets with their `$$` names (tsx:177-181), but `handlePresetChange` looks the chosen name up among the model's presets only. | Saved presets `[$$foo]` and no model preset named `$$foo`. Choosing `foo` in the dropdown makes `find` return `undefined`, so reading `sampling_parameters` throws, and nothing changes. | Look the name up among the saved custom presets too, apply that preset's configuration and select it. | not executed | ChatConfig.SelectSavedPresetAsWrittenThrows | ChatConfig.PresetConfig |
| website/src/components/Chat/ChatConfigForm.tsx:275 | Hydration looks the cached custom preset up in the `customPresets` state of the mount render, which is always the initial `[]`. | The cache selects `$$mine` and holds the preset `$$mine`. Nothing is restored, and the selection stays as derived at mount. | Look the name up in the `custom_presets` just read from the cache. | not executed | ChatConfig.HydrationAsWrittenDropsCustomPreset | ChatConfig.HydrationTargetCorrected |
