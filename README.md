# A chat client's core logic, modelled in Dafny

The system is a browser chat client with a Swedish interface. It talks to hosted language models through
an AI SDK and keeps its state in the browser's `localStorage`. This project models the sequential logic
under its user interface:

- **Schema** (`schema.dfy`): the message, conversation, model and settings shapes, and their validators.
  Parsing is stated over a small JSON value type.
- **Models** (`models.dfy`): the static model catalog, its seven categories, the defaults, and the two
  lookups (`getModelsByCategory`, `getModelById`).
- **Storage** (`storage.dfy`): the persistence layer. A `Store` class holds two slots, one for the
  conversation list and one for the settings record. Saving upserts by id, deleting filters by id, and a
  failed write leaves the slot as it was.
- **ChatPage** (`chat.dfy`): the chat page's send pipeline as a `Page` class. A send builds the call
  options and the history, makes the call with one retry without temperature, normalises and
  accumulates streamed fragments until the user stops, appends the reply, and persists the conversation.
  The module also covers stopping and the persist effect.
- **Sidebar** (`sidebar.dfy`): the history list (newest first, at most ten), delete-and-reload, the
  open-category toggle, and the case-insensitive model search.
- **Shell** (`shell.dfy`): the application shell as an `App` class. It restores the preferences at
  startup and writes them back on change. It also handles new chat, load conversation, model select,
  temperature change and the sidebar refresh counter.
- **ChatInput** (`chat_input.dfy`): the message box's send guard and its Enter / Shift+Enter rule.
- **Text** and **Options** (`text.dfy`, `options.dfy`): the JavaScript string built-ins the client
  relies on (`includes`, `substring`, `trim`, `toLowerCase`), and an option type.

External effects become parameters:

- The AI service's answer to each call is an `Outcome`: a rejection carrying an error, or a finite
  sequence of streamed fragments that may throw at the end.
- The user's stop click is a schedule, `stop: Option<nat>`. It names how many fragments had been taken
  when the click arrived.
- Fresh ids, clock readings and whether each storage write succeeds are arguments.

Where the code and the described design differ, the model follows the code:

- The ChatSettings interface at `client/src/lib/storage.ts:7-10` declares two fields. The shell writes
  four (`client/src/App.tsx:70`), so the stored record has four, two of them optional.
- At startup the save effect runs once with the initial preferences before the restored ones arrive, so
  the stored record is first overwritten with the defaults (`Shell.App.Startup`).
- Toggling an open category twice does not restore the list exactly. The category moves to the end, and
  only the set of open categories is restored (`Sidebar.ToggleTwiceOpen`).
- Mounting the chat page without a loaded conversation creates one with no messages. It is not saved
  until it has a message.
- Mounting with a loaded conversation that has messages runs the persist effect once. The conversation
  is saved again with the mount time as its update time, and the shell is notified
  (`ChatPage.Page.constructor`).

## Model

| member | source | states |
|---|---|---|
| Text.Contains | client/src/components/app-sidebar.tsx:84-85 | `includes` holds exactly when some window of the text equals the needle |
| Text.Take | client/src/lib/storage.ts:62 | `substring(0, n)` is a prefix whose length is the smaller of n and the text's length |
| Text.Trim | client/src/components/chat-input.tsx:18-19 | the result is a slice of the input with only whitespace cut on both sides; it starts and ends with non-whitespace; it is empty exactly when the input is all whitespace |
| Text.TrimIdempotent | client/src/components/chat-input.tsx:18-19 | trimming twice is trimming once |
| Text.LowerChar | client/src/components/app-sidebar.tsx:84-85 | an upper-case ASCII letter maps to the lower-case letter at the same offset from `a`; every other character is unchanged |
| Text.OccursShift | client/src/components/app-sidebar.tsx:84-85 | the needle occurs in the text without its first character at position i exactly when it occurs in the whole text at i + 1 |
| Text.Lower | client/src/components/app-sidebar.tsx:84-85 | `toLowerCase` keeps the length and lower-cases each character in place |
| Schema.ParseRole | shared/schema.ts:6 | a role validates exactly when it is one of the strings user, assistant or system, and it is read back as that role |
| Schema.ValidatedMessageEncoded | shared/schema.ts:4-10 | a JSON object that validates as message m has m's encoding on its known keys |
| Schema.EncodedMessageValidates | shared/schema.ts:4-10 | an object whose known keys encode m validates as m, whatever other keys it has |
| Schema.MessageValidation | shared/schema.ts:4-10 | a value validates as m if and only if it is an object whose known keys are: string id and content, a valid role, a number timestamp, and an optional string model |
| Schema.MessageRoundTrip | shared/schema.ts:4-10 | every message survives encoding and validation unchanged |
| Schema.ParseMessages | shared/schema.ts:18 | an array validates exactly when every element does, and then element i is element i's message |
| Schema.ParseConversation | shared/schema.ts:15-23 | a conversation validates if and only if id, title and model are strings, temperature, createdAt and updatedAt are numbers, and messages is an array whose every element validates; the parsed fields are the object's fields, and each parsed message is its element's |
| Schema.ConversationIgnoresExtraKeys | shared/schema.ts:15-23 | a key outside the conversation's declared fields does not change whether or how the object parses |
| Schema.MessagesRoundTrip | shared/schema.ts:18 | every message list survives encoding and validation unchanged |
| Schema.ConversationFields | shared/schema.ts:15-23 | the scalar fields and the messages array of an encoded conversation read back as written |
| Schema.ConversationRoundTrip | shared/schema.ts:15-23 | every conversation, with all its messages, survives encoding and validation unchanged |
| Schema.ParseSettings | shared/schema.ts:37-41 | settings validate exactly when the temperature is a number in [0, 2] and stream and testMode are booleans; a validated record is within bounds and carries the object's own temperature, stream and testMode values |
| Schema.SettingsRoundTrip | shared/schema.ts:37-41 | an encoded settings record validates back to itself exactly when its temperature is in range, and is rejected otherwise |
| Models.FilterCategory | client/src/lib/models.ts:74-76 | the filtered list holds exactly the entries of the given category, and is no longer than the input |
| Models.FilterCategoryAppend | client/src/lib/models.ts:74-76 | filtering distributes over concatenation, so catalog order is kept |
| Models.ModelsByCategory | client/src/lib/models.ts:74-76 | a category's list holds exactly the catalog entries of that category |
| Models.FilterCategoryAll | client/src/lib/models.ts:74-76 | filtering a table wholly in one category keeps all of it for that category and gives [] for any other |
| Models.BlocksInCategories | client/src/lib/models.ts:3-62 | every entry of each provider block carries that block's category |
| Models.FilterBlocks | client/src/lib/models.ts:74-76 | over eight category-uniform tables laid end to end, the filter keeps exactly the tables of the category, whole and in order |
| Models.ModelsByCategoryBlocks | client/src/lib/models.ts:74-76 | each category's list is exactly its provider block in catalog order (the GPT block then the o-series block for OpenAI); any other category lists nothing |
| Models.FindModel | client/src/lib/models.ts:79 | `find` returns the first entry with the id, and returns nothing exactly when no entry has it |
| Models.ModelById | client/src/lib/models.ts:78-80 | the result is a catalog entry with the id, and is absent exactly when no entry has the id |
| Models.IdAbsentFromSound | client/src/lib/models.ts:5-61 | the entry-by-entry check implies that no entry from the given index on has the id |
| Models.BlockFromSound | client/src/lib/models.ts:5-61 | a provider block checked entry by entry has distinct ids, all with the block's prefix and category |
| Models.JoinDistinct | client/src/lib/models.ts:3-62 | two blocks with distinct ids and disjoint id prefixes join into a list with distinct ids |
| Models.GptBlockTail | client/src/lib/models.ts:10-14 | the second half of the GPT block passes the entry-by-entry distinctness check |
| Models.GptBlock | client/src/lib/models.ts:5-14 | the GPT block's ids are distinct, share its prefix, and all lie in its category |
| Models.OSeriesBlock | client/src/lib/models.ts:15-20 | the o-series block's ids are distinct, carry its prefixes, and all lie in OpenAI |
| Models.AnthropicBlock | client/src/lib/models.ts:23-25 | the Anthropic block's ids are distinct, share its prefix, and all lie in its category |
| Models.GoogleBlock | client/src/lib/models.ts:28 | the Google block's id carries its prefix and lies in Google |
| Models.XaiBlockTail | client/src/lib/models.ts:36-40 | the second half of the xAI block passes the entry-by-entry distinctness check |
| Models.XaiBlock | client/src/lib/models.ts:31-40 | the xAI block's ids are distinct, share its prefix, and all lie in its category |
| Models.MetaBlock | client/src/lib/models.ts:43-46 | the Meta block's ids are distinct, share its prefix, and all lie in its category |
| Models.DeepSeekBlock | client/src/lib/models.ts:49-50 | the DeepSeek block's ids are distinct, share its prefix, and all lie in its category |
| Models.CohereBlockTail | client/src/lib/models.ts:57-61 | the last five entries of the Cohere block pass the entry-by-entry distinctness check |
| Models.CohereBlock | client/src/lib/models.ts:53-61 | the Cohere block's ids are distinct, share its prefix, and all lie in its category |
| Models.CatalogIdsDistinct | client/src/lib/models.ts:5-61 | no two catalog entries share an id |
| Models.ModelByIdOfEntry | client/src/lib/models.ts:78-80 | looking up any catalog entry's id returns that very entry |
| Models.DefaultsValid | client/src/lib/models.ts:82-83 | the default model is the catalog entry "GPT-5 Nano", and the default temperature lies in [0, 2] |
| Models.CategoriesCoverCatalog | client/src/lib/models.ts:64-72 | every entry's category is one of the seven categories |
| Models.CategoriesPartitionCatalog | client/src/lib/models.ts:64-76 | each entry is listed under its own category and under no other |
| Models.FilterCategoryNone | client/src/lib/models.ts:74-76 | filtering a table with no entry of the category gives the empty list |
| Models.UnknownCategoryEmpty | client/src/lib/models.ts:74-76 | a category outside the seven has no models |
| Storage.ListIn | client/src/lib/storage.ts:29-37 | a slot holding a list reads as that list; an absent or unreadable slot reads as [] |
| Storage.SettingsIn | client/src/lib/storage.ts:82-90 | settings read as present exactly when the slot holds a record, and then as that record; otherwise as null |
| Storage.FindIndex | client/src/lib/storage.ts:15 | the result is -1 exactly when no entry has the id; otherwise it is the first index with the id |
| Storage.FindById | client/src/lib/storage.ts:41 | the result is the first entry with the id, and is absent exactly when none has it |
| Storage.RemoveId | client/src/lib/storage.ts:47 | the filtered list holds exactly the entries whose id differs, and is no longer than the input |
| Storage.UpsertReplaces | client/src/lib/storage.ts:15-18 | saving a stored id replaces its first entry at the same index and changes nothing else |
| Storage.UpsertAppends | client/src/lib/storage.ts:19-20 | saving a new id appends it, so the list grows by exactly one |
| Storage.UpsertByIndex | client/src/lib/storage.ts:15-21 | the index-based save and the entry-by-entry upsert agree |
| Storage.UpsertThenFind | client/src/lib/storage.ts:12-42 | after a save, looking up the saved id returns the saved conversation |
| Storage.UpsertKeepsOthers | client/src/lib/storage.ts:12-42 | a save leaves the lookup of every other id unchanged |
| Storage.AfterSaveKeepsOthers | client/src/lib/storage.ts:12-27 | a save, whether its write succeeds or fails, leaves the stored lookup of every other id unchanged |
| Storage.SavesKeepOthers | client/src/lib/storage.ts:12-27 | one save, or two saves of the same conversation, leave every other stored conversation as it was |
| Storage.UpsertIdempotent | client/src/lib/storage.ts:12-27 | saving the same conversation twice stores the same list as saving it once |
| Storage.UpsertKeepsDistinct | client/src/lib/storage.ts:12-23 | distinct ids stay distinct after a save, and the saved id's only entry is the saved conversation |
| Storage.RemoveAbsent | client/src/lib/storage.ts:47 | deleting an id that is not stored leaves the list unchanged |
| Storage.RemoveDistributes | client/src/lib/storage.ts:47 | deleting distributes over concatenation, so the remaining entries keep their order |
| Storage.RemoveThenFind | client/src/lib/storage.ts:44-49 | after a delete, the id is not found, and every other id's lookup is unchanged |
| Storage.Title | client/src/lib/storage.ts:61-62 | content of up to 50 characters is the title; longer content gives its first 50 characters plus "...", 53 in all; the title is empty only for empty content |
| Storage.CreateConversation | client/src/lib/storage.ts:54-72 | without an initial message, the title is "Ny konversation" and there are no messages; with one, the messages are that message and the title comes from its content |
| Storage.Store.constructor | client/src/lib/storage.ts:4-5 | the store starts with the given slots |
| Storage.Store.StoredSettings | client/src/lib/storage.ts:82-90 | settings read as null exactly when the slot holds no record, and a held record is read back as it is |
| Storage.Store.SaveConversation | client/src/lib/storage.ts:12-27 | a successful write stores the upserted list, after which the id looks up to the saved conversation; a failed write changes nothing; the new slot is `AfterSave` of the old one |
| Storage.Store.GetConversation | client/src/lib/storage.ts:39-42 | returns the first stored conversation with the id |
| Storage.Store.DeleteConversation | client/src/lib/storage.ts:44-52 | a successful write stores the list without the id, and no stored entry has it; a failed write changes nothing |
| Storage.Store.SaveSettings | client/src/lib/storage.ts:74-90 | after a successful write, reading the settings returns what was saved; a failed write changes nothing |
| Storage.Store.ClearAllData | client/src/lib/storage.ts:92-99 | the two keys are removed in order, and a failure skips the rest; after both removals, conversations read as [] and settings as null |
| ChatPage.BuildOptions | client/src/pages/chat.tsx:102-113 | options always stream with the selected model, and carry the temperature if and only if it is not 1 |
| ChatPage.FallbackOptions | client/src/pages/chat.tsx:120-123 | the retry streams with the same model and no temperature |
| ChatPage.Turns | client/src/pages/chat.tsx:92-95 | the prior messages become (role, content) pairs, in order |
| ChatPage.BuildHistory | client/src/pages/chat.tsx:91-97 | the history is the prior pairs followed by one user turn with the new content, one longer than the prior messages |
| ChatPage.CallWithRetry | client/src/pages/chat.tsx:115-128 | there are two calls exactly when the first is rejected with a message mentioning "temperature"; the retry uses the fallback options and decides the outcome; otherwise the first outcome stands; every call gets the same history |
| ChatPage.FragmentText | client/src/pages/chat.tsx:137 | a fragment gives the first non-empty value among its text, its first content block's text and its string content, or "" when all are empty |
| ChatPage.ArrayAsText | client/src/pages/chat.tsx:137-138 | an array stringifies to the empty string exactly when it is empty |
| ChatPage.AsWrittenDiffers | client/src/pages/chat.tsx:137 | the expression as written differs from the intended text exactly on a non-empty content array whose first block has no text |
| ChatPage.AsWrittenLeaksObject | client/src/pages/chat.tsx:137 | a single text-less content block puts "[object Object]" into the reply, where "" was intended |
| ChatPage.JoinedAppend | client/src/pages/chat.tsx:138 | accumulation distributes over concatenation of fragment sequences |
| ChatPage.JoinedPrefix | client/src/pages/chat.tsx:138-139 | the streamed text only grows: each partial text is a prefix of every later one |
| ChatPage.EndOf | client/src/pages/chat.tsx:130-142 | a rejection fails with no text; a stop before fragment k aborts with the corrected fragment text of the first k fragments; otherwise the text is all fragments, aborted when the stop came at the end, failed when the stream threw |
| ChatPage.StopIgnoresLaterFragments | client/src/pages/chat.tsx:133-134 | fragments after the stop point never reach the reply text, and neither does how the stream ends |
| ChatPage.ModelLabel | client/src/pages/chat.tsx:148 | an id that is not in the catalog labels itself |
| ChatPage.ModelLabelOfEntry | client/src/pages/chat.tsx:148 | a catalog model is labelled with its name |
| ChatPage.ReplyOf | client/src/pages/chat.tsx:142-150 | a reply exists if and only if the send was neither stopped nor failed and its text is non-empty; it is an assistant message with that text and the model label |
| ChatPage.PersistTitle | client/src/pages/chat.tsx:71 | an empty first message gives "Ny konversation"; otherwise the non-empty title of the first message |
| ChatPage.Snapshot | client/src/pages/chat.tsx:65-72 | the saved record keeps the id and creation time and takes the current messages, model, temperature, clock reading and title |
| ChatPage.SnapshotTwice | client/src/pages/chat.tsx:63-77 | a later snapshot overwrites everything an earlier one set |
| ChatPage.SendReply | client/src/pages/chat.tsx:142-151 | a send appends at most one reply |
| ChatPage.Page.constructor | client/src/pages/chat.tsx:44-77 | a loaded conversation is shown with its messages, and when it has messages the mount persist effect re-saves it with the mount time and notifies the shell once; a loaded empty conversation or a fresh one with no messages changes neither storage nor the notification count |
| ChatPage.Page.PersistEffect | client/src/pages/chat.tsx:63-77 | with no open conversation or no messages, nothing is saved; otherwise the snapshot is upserted into storage (the slot becomes `AfterSave` of the old one), becomes the open conversation, and the shell is notified once |
| ChatPage.Page.ReceiveProps | client/src/pages/chat.tsx:63-77 | new props are adopted; a changed model or temperature re-saves a non-empty open conversation (storage becomes `AfterSave` of the old slot, one notification); unchanged props, or changed props with no messages or no open conversation, change neither storage nor the open conversation |
| ChatPage.Page.HandleStop | client/src/pages/chat.tsx:167-173 | a running send is aborted, stops streaming and clears the streamed text; with no send running nothing changes |
| ChatPage.Page.Consume | client/src/pages/chat.tsx:130-140 | the accumulated text is the joined corrected fragment text of the fragments taken; a stop before fragment k takes exactly k fragments; otherwise all are taken and the streamed text shows them |
| ChatPage.Page.Settle | client/src/pages/chat.tsx:130-164 | the state after the service answered is the one the ending and the reply determine: the reply, if any, is appended and the storage slot becomes `AfterSave` of the old one; without a reply messages, the open conversation and storage are unchanged; the controller is aborted exactly when the ending is, and streaming stops only then |
| ChatPage.Page.SettleStream | client/src/pages/chat.tsx:130-153 | on a stream, the state after the loop and the append is the one the ending and the reply determine, storage included; the controller is aborted exactly when the ending is, and streaming stops only then |
| ChatPage.Page.FinishStream | client/src/pages/chat.tsx:142-153 | once every fragment is taken, a late stop still aborts and a throwing end fails the send; otherwise a non-empty reply is appended and saved, the slot becoming `AfterSave` of the old one; the controller is aborted exactly when the late stop came, and streaming stops only then |
| ChatPage.Page.AppendReply | client/src/pages/chat.tsx:151-152 | the reply is appended, the streamed text is cleared, and the open conversation is re-saved with it; the storage slot becomes exactly `AfterSave` of the old one |
| ChatPage.Page.BeginSend | client/src/pages/chat.tsx:80-89 | the user message is appended, streaming starts, and the open conversation is saved with the message; the storage slot becomes exactly `AfterSave` of the old one, so a failed write leaves storage unchanged |
| ChatPage.Page.Respond | client/src/pages/chat.tsx:99-164 | the calls are the retry's calls on the given history; the state afterwards is settled by the resulting ending and reply, with storage either unchanged (no reply) or `AfterSave` of the old slot with the re-saved conversation; streaming ends and the controller is released |
| ChatPage.Page.HandleSend | client/src/pages/chat.tsx:79-165 | the user message stays and is followed by at most one reply; the calls, the failure flag and the streamed text follow from the outcomes and the stop; the open conversation is saved once per appended message, and storage is the old slot after exactly those saves (one `AfterSave` per appended message), so with `Storage.SavesKeepOthers` every other conversation is untouched; streaming always ends |
| Sidebar.InsertByRecencyAdds | client/src/components/app-sidebar.tsx:62 | inserting adds exactly the one conversation |
| Sidebar.HeadIsNewest | client/src/components/app-sidebar.tsx:62 | in a newest-first list, the head is at least as recent as every entry |
| Sidebar.InsertByRecencySorted | client/src/components/app-sidebar.tsx:62 | inserting into a newest-first list keeps it newest first |
| Sidebar.SortByRecency | client/src/components/app-sidebar.tsx:62 | the sorted list is newest first and a permutation of the stored list |
| Sidebar.History | client/src/components/app-sidebar.tsx:60-63 | the history is newest first and holds min(stored, 10) conversations |
| Sidebar.HistoryIsNewest | client/src/components/app-sidebar.tsx:60-63 | the history shows only stored conversations, each no more often than stored, and nothing cut off is newer than anything shown |
| Sidebar.ShortHistoryIsComplete | client/src/components/app-sidebar.tsx:60-63 | with at most ten stored, the history is all of them |
| Sidebar.DeleteAndReload | client/src/components/app-sidebar.tsx:65-69 | the reloaded history is the history of the stored list; after a successful delete it contains no conversation with the id |
| Sidebar.Without | client/src/components/app-sidebar.tsx:74 | the filtered list holds exactly the other categories |
| Sidebar.Toggle | client/src/components/app-sidebar.tsx:71-77 | the toggled category becomes open exactly when it was closed; other categories keep their state |
| Sidebar.WithoutAbsent | client/src/components/app-sidebar.tsx:74 | removing a category that is not open changes nothing |
| Sidebar.ToggleTwiceClosed | client/src/components/app-sidebar.tsx:71-77 | opening a closed category and closing it again restores the list exactly |
| Sidebar.WithoutAppend | client/src/components/app-sidebar.tsx:74 | removal distributes over concatenation |
| Sidebar.ToggleTwiceOpen | client/src/components/app-sidebar.tsx:71-77 | closing an open category and reopening it moves it to the end, so only the set of open categories is restored |
| Sidebar.LowerIdempotent | client/src/components/app-sidebar.tsx:84-85 | lower-casing twice is lower-casing once |
| Sidebar.MatchesIgnoresCase | client/src/components/app-sidebar.tsx:166-171 | a query and its lower-cased form match the same models |
| Sidebar.Matching | client/src/components/app-sidebar.tsx:166-171 | the kept models are exactly those that match; with an empty query every model is kept, in order |
| Sidebar.VisibleModels | client/src/components/app-sidebar.tsx:166-171 | a category lists exactly its catalog models that match the query, and all of them for an empty query |
| Sidebar.AnyMatches | client/src/components/app-sidebar.tsx:82-86 | `some` holds exactly when some model of the list matches |
| Sidebar.KeptCategories | client/src/components/app-sidebar.tsx:79-87 | a category is kept exactly when the query is empty or one of its models matches |
| Sidebar.FilteredCategories | client/src/components/app-sidebar.tsx:79-87 | every kept category is a catalog category |
| Sidebar.AnyMatchesIffMatching | client/src/components/app-sidebar.tsx:82-86 | some model matches exactly when the matching list is not empty |
| Sidebar.FilteredCategoriesKept | client/src/components/app-sidebar.tsx:79-87 | a catalog category is kept exactly when the query is empty or it would list a model |
| Sidebar.EmptyQueryKeepsAll | client/src/components/app-sidebar.tsx:80 | with an empty query every category is kept, in catalog order |
| Sidebar.KeptAll | client/src/components/app-sidebar.tsx:80 | with an empty query no category of any list is dropped |
| Sidebar.NonEmptyGroups | client/src/components/app-sidebar.tsx:173 | the groups drawn are exactly those whose model list is not empty |
| Sidebar.RenderedCategories | client/src/components/app-sidebar.tsx:165-173 | a category is drawn exactly when it is a catalog category that lists a model for the query |
| Shell.DefaultPrefs | client/src/App.tsx:51-54 | the defaults are a catalog model, a temperature in [0, 2], and an empty prompt and preset |
| Shell.Restored | client/src/App.tsx:59-67 | a stored record replaces the defaults, with a missing prompt or preset read as ""; without one the defaults stay |
| Shell.RestoreWritten | client/src/App.tsx:59-71 | the record the shell writes restores to the same preferences |
| Shell.LoadedPrefs | client/src/App.tsx:80-83 | a loaded conversation brings its model and temperature, and an empty prompt and preset |
| Shell.App.constructor | client/src/App.tsx:51-57 | the shell starts with the default preferences, key 0, nothing loaded, and refresh counter 0 |
| Shell.App.SetPrefs | client/src/App.tsx:69-71 | the preferences become p; when they changed and the write succeeds, all four are stored as one record; otherwise storage is unchanged |
| Shell.App.Startup | client/src/App.tsx:59-71 | the preferences become the restored ones; storage ends with the restored record, or the defaults when only the second write fails, or is untouched when both writes fail or when nothing changed and the first write failed |
| Shell.App.HandleNewChat | client/src/App.tsx:73-76 | nothing is loaded and the chat key grows by exactly one |
| Shell.App.HandleLoadConversation | client/src/App.tsx:78-85 | the conversation is loaded with its model and temperature, the prompt and preset become "", the key grows by one, and a change is written back |
| Shell.App.HandleModelSelect | client/src/App.tsx:87-89 | only the model changes, and a change is written back |
| Shell.App.HandleTemperatureChange | client/src/App.tsx:111 | only the temperature changes, and a change is written back |
| Shell.App.HandleConversationUpdate | client/src/App.tsx:91-93 | only the refresh counter changes, by exactly one |
| ChatInput.Input.constructor | client/src/components/chat-input.tsx:14 | the draft starts empty |
| ChatInput.Input.HandleChange | client/src/components/chat-input.tsx:14 | typing replaces the draft |
| ChatInput.Input.HandleSend | client/src/components/chat-input.tsx:17-25 | text is sent if and only if the trimmed draft is non-empty and the box is neither disabled nor streaming; the sent text is the trimmed draft, non-blank and trimmed at both ends, and the draft is then cleared; otherwise the draft is unchanged |
| ChatInput.Input.HandleKeyDown | client/src/components/chat-input.tsx:27-32 | exactly Enter without Shift is intercepted and attempts a send; any other key sends nothing and leaves the draft |
| ChatInput.BlankNeverSent | client/src/components/chat-input.tsx:18 | a draft of only whitespace is never sent |
| ChatInput.ResendSame | client/src/components/chat-input.tsx:18-19 | text that was sent passes the guard again and trims to itself |

## Left out

- Rendering is not modelled: JSX, toasts, `console.error`, scrolling, the router, the textarea's
  auto-height, and the message and empty-state components. They compute no state the model needs.
- The AI SDK is not modelled. Each call's answer is an `Outcome` parameter; a rejection's message is
  the only part of the error that matters.
- Asynchronous interleaving is not modelled. A stop click lands only between fragments or after the
  last one, as the `stop` schedule says. A click after the send has ended finds no controller.
- `localStorage` and JSON text are modelled as typed slots. A slot holds either nothing, unreadable
  text, or a value this layer wrote; parsing stored text into values is not part of the storage model.
  The schema validators are modelled separately over a JSON value type.
- Fresh ids (`nanoid`) and clock readings (`Date.now`) are parameters, one per use.
- Text.Lower: lower-cases only A to Z, because the Unicode case tables are not part of this model.
- Strings are sequences of code points. JavaScript's UTF-16 lengths, which affect `substring(0, 50)` on
  characters outside the Basic Multilingual Plane, are not modelled.
- Temperatures and timestamps are exact reals. Floating-point rounding is not modelled; the code only
  compares these values.
- Sidebar.SortByRecency: does not state that entries with equal update times keep their stored order,
  which the definition nonetheless does.
- System prompt and preset setters (`client/src/App.tsx:112-115`) are not modelled, because the sidebar
  accepts no such props. The preferences still carry both fields, as the shell stores them.
- React effect scheduling is fixed to the order the effects are declared in. At startup the restore
  effect reads first, then the save effect writes the initial preferences, then the restored ones.
- ChatPage.ModelLabel: states only the case of an id outside the catalog. The catalog case is
  `ChatPage.ModelLabelOfEntry`.
- ChatPage.Joined: the streamed text accumulates the corrected fragment text (`ChatPage.FragmentText`), not
  the expression at `client/src/pages/chat.tsx:137`; so do `ChatPage.EndOf`, `ChatPage.Page.Consume` and
  `ChatPage.Page.HandleSend`. The as-written expression is `ChatPage.AsWrittenLeaksObject` (see Findings).

## Findings

| source | as written | input that shows it | evidently intended | confidence | as-written member | corrected member |
|---|---|---|---|---|---|---|
| client/src/pages/chat.tsx:137 | when a fragment has no text and its content is an array whose first block has no text, the fallback chain yields the array itself, and appending it to the reply adds "[object Object]" | a fragment whose content is one block with no text, such as a tool-call block | only text is accumulated, so such a fragment contributes "" | not executed | ChatPage.AsWrittenLeaksObject | ChatPage.FragmentText |
