# Dify conversation sync, modelled in Dafny

This project models the core of the Dify chatflow bundle: the
`dify:sync-conversations` console command, the two Doctrine entities it
writes, and the eight request builders for the Dify chat API.

For every app the app registry resolves, the command does four things:

- it points the API client at the app;
- it walks the app's conversations page by page, using the `last_id` cursor;
- for each conversation, it makes one request for up to 1000 messages;
- it upserts conversations and messages by their Dify ids, then flushes once per app.

Under `--dry-run` nothing is persisted. A failing app is reported, and the
command carries on with the next app.

Modules, one concern each:

- `php.dfy`
  - `Wrappers`: `Option`.
  - `Php`: the PHP values the command handles. An array is an ordered list of key/value entries, so it serves both as a list and as a map. The file also has `??` lookup and `is_numeric`/`(int)` on integers and decimal strings.
- `requests.dfy` (`Requests`): one datatype per request builder, covering path, HTTP method, query or body, and options.
  - Each builder has a decoder, with a round-trip lemma proving that the options determine the request.
  - Each optional key is present exactly when its argument is given.
- `entities.dfy` (`Entities`): the classes `Conversation` and `ConversationMessage`.
  - Each field is mutable and updated in place by its setter.
  - A field never assigned is `None`, as PHP's `??` sees an uninitialized typed property.
  - `__toString` is modelled, and the `Assert` constraints are predicates on a snapshot of the fields (`Row()`).
- `sync_spec.dfy` (`SyncSpec`): the command as functions over a `World`. A `World` holds three things:
  - the store: committed rows plus the unit of work's pending rows;
  - the API client's remaining scripted replies;
  - the log of API calls made so far.
- `sync_command.dfy` (`SyncCommand`): the command as a class whose methods and loops mirror the PHP methods. Each method is proved to compute exactly what its `SyncSpec` function says.
- `sync_properties.dfy` (`SyncProperties`): properties of whole runs, proved by induction:
  - the counts;
  - the store effects (dry run, commit only at flush, the store invariant);
  - the requests made;
  - a dry run issues the same requests as a live run.
- `sync_scenarios.dfy` (`SyncScenarios`): concrete runs.
  - The command's own tests: a dry run, no apps, and the same run live.
  - A cursor of `"0"`.
  - An app failing halfway.

## Model

| member | source | states |
|---|---|---|
| Php.IntStringRoundTrip | src/Command/SyncConversationsCommand.php:359-364 | reading back the decimal string of any integer with `(int)` gives the integer |
| Php.Lookup | src/Command/SyncConversationsCommand.php:349-354 | a key's value is one of the array's entries under that key; no value means no entry has the key |
| Php.Get | src/Command/SyncConversationsCommand.php:449-462 | `$data[k] ?? null`: the stored value, or null for a missing key |
| SyncSpec.ArrayOrNull | src/Command/SyncConversationsCommand.php:513-526 | `is_array($v) ? $v : null`: set exactly when the value is an array, and then to its entries |
| SyncSpec.ExtractString | src/Command/SyncConversationsCommand.php:349-354 | the value under the key if it is a string; the default if the key is missing or holds a non-string |
| SyncSpec.ExtractInt | src/Command/SyncConversationsCommand.php:359-364 | an int is kept; a numeric string becomes its number; any non-numeric value gives the default |
| SyncSpec.ExtractIntOfDecimalString | src/Command/SyncConversationsCommand.php:359-364 | a timestamp sent as a decimal string is read back as that number |
| SyncSpec.GetNextPageId | src/Command/SyncConversationsCommand.php:186-203 | a cursor exists exactly when `has_more` is `true`, `data` is a non-empty array and its last element is an array with a string `id`; the cursor is then that id |
| SyncSpec.HasValidConversationsData | src/Command/SyncConversationsCommand.php:178-181 | a body is valid exactly when it holds the key `data` with a non-empty array |
| SyncSpec.NextPageIdOfLastConversation | src/Command/SyncConversationsCommand.php:186-203 | for any page whose `has_more` is true and whose `data` ends with a conversation carrying a string id, the cursor is that id, whatever else the page holds and whatever precedes that conversation |
| SyncSpec.Flush | src/Command/SyncConversationsCommand.php:119-121 | nothing is left pending; every lookup by id returns what it did before; the store invariant is kept |
| SyncSpec.FindOrCreateConversation | src/Command/SyncConversationsCommand.php:423-440 | returns the stored row if there is one; otherwise a new row with the id, the app, and the app id (or `''`) as user |
| SyncSpec.MapConversation | src/Command/SyncConversationsCommand.php:445-463 | keeps id and app; name and status become the payload's string or `''`; introduction its string or null; inputs its array or null; both timestamps `extractIntValue` with default 0; user the payload's string if it is one, else unchanged |
| SyncSpec.MapConversationIdempotent | src/Command/SyncConversationsCommand.php:445-463 | mapping the same payload twice gives the same row as mapping it once |
| SyncSpec.SaveConversation | src/Command/SyncConversationsCommand.php:411-421 | a payload without a string id changes nothing; otherwise the found-or-created row is mapped and stored under that id; no other row and nothing committed changes |
| SyncSpec.SaveConversationIdempotent | src/Command/SyncConversationsCommand.php:411-440 | saving the same payload again leaves the store as the first save did, with no duplicate |
| SyncSpec.SavedConversationValid | src/Entity/Conversation.php:27-73 | a new conversation saved from a payload that meets the entity's constraints satisfies them |
| SyncSpec.NamelessConversationInvalid | src/Command/SyncConversationsCommand.php:445-463 | a payload without `name` is stored with the name `''`, which the entity's constraints reject |
| SyncSpec.FindOrCreateMessage | src/Command/SyncConversationsCommand.php:480-493 | returns the stored message if there is one; otherwise a new one with the id and the app |
| SyncSpec.FeedbackRating | src/Command/SyncConversationsCommand.php:531-543 | the rating is set iff `feedback` is an array whose `rating` is a string, and it is then that string |
| SyncSpec.MapMessage | src/Command/SyncConversationsCommand.php:498-508 | keeps id and app; `conversation_id`, query, answer and user become the payload's string or `''`; creation time `extractIntValue` with default 0; inputs, `message_files` and `retriever_resources` the payload's array or null; the rating is `FeedbackRating` |
| SyncSpec.SaveMessage | src/Command/SyncConversationsCommand.php:468-478 | a payload without a string id changes nothing; otherwise the mapped message is stored under its id; nothing else changes |
| SyncSpec.SaveMessageIdempotent | src/Command/SyncConversationsCommand.php:468-508 | saving the same message payload again changes nothing |
| SyncSpec.MessageLinkFromPayload | src/Command/SyncConversationsCommand.php:498-508 | a message is linked to the conversation id in its own payload |
| SyncSpec.MessagePreview | src/Command/SyncConversationsCommand.php:337-344 | a prefix of the query of at most 50 characters: the whole query when it has at most 50, exactly 50 when it is longer; `''` without a string query |
| SyncSpec.Fetch | src/Command/SyncConversationsCommand.php:369-406 | logs the call and consumes one reply; succeeds iff a reply is left and it is an array, returning that reply |
| SyncSpec.MessageBatch | src/Command/SyncConversationsCommand.php:298-316 | the count grows by at most one per element; a dry run leaves the store as it was |
| SyncSpec.ConversationMessages | src/Command/SyncConversationsCommand.php:267-293 | never consumes more replies than are left, which the page walk's termination relies on |
| SyncSpec.ConversationStep | src/Command/SyncConversationsCommand.php:240-251 | never consumes more replies than are left |
| SyncSpec.ConversationBatch | src/Command/SyncConversationsCommand.php:209-235 | never consumes more replies than are left |
| SyncSpec.Paginate | src/Command/SyncConversationsCommand.php:136-173 | every walk consumes at least one reply, unless none is left and it throws; this is the walk's termination measure |
| SyncSpec.SyncApp | src/Command/SyncConversationsCommand.php:108-131 | an app without an id throws with the world untouched; with an id, a reply is consumed unless none is left and it throws; a completed live sync leaves nothing pending |
| SyncSpec.RunApps | src/Command/SyncConversationsCommand.php:75-86 | never consumes replies it does not have; the totals only grow |
| SyncSpec.PageLimit | src/Command/SyncConversationsCommand.php:55-56 | an int limit is kept; a numeric string is cast; anything else gives 100 |
| SyncSpec.Execute | src/Command/SyncConversationsCommand.php:63-94 | no apps: FAILURE, with nothing done; otherwise SUCCESS, whatever each app did |
| SyncCommand.SyncConversationsCommand.constructor | src/Command/SyncConversationsCommand.php:31-39 | starts from the given store and replies, with no calls made yet |
| SyncCommand.SyncConversationsCommand.Request | src/Command/SyncConversationsCommand.php:369-385 | the next scripted reply, or an exception, exactly as `Fetch` |
| SyncCommand.SyncConversationsCommand.FetchConversations | src/Command/SyncConversationsCommand.php:369-385 | one page request for the user, cursor and limit, as `Fetch` |
| SyncCommand.SyncConversationsCommand.FetchMessages | src/Command/SyncConversationsCommand.php:390-406 | one request for up to 1000 messages of the conversation, as `Fetch` |
| SyncCommand.SyncConversationsCommand.ValidateApp | src/Command/SyncConversationsCommand.php:126-131 | the app passes iff it has an id |
| SyncCommand.SyncConversationsCommand.FindOrCreateConversation | src/Command/SyncConversationsCommand.php:423-440 | a fresh entity whose fields are `SyncSpec.FindOrCreateConversation`'s row |
| SyncCommand.SyncConversationsCommand.MapConversationData | src/Command/SyncConversationsCommand.php:445-463 | after its sequence of setter calls, the entity holds `MapConversation` of its old fields |
| SyncCommand.SyncConversationsCommand.SaveConversation | src/Command/SyncConversationsCommand.php:411-421 | the store becomes `SyncSpec.SaveConversation` of the old one; replies and calls are unchanged |
| SyncCommand.SyncConversationsCommand.FindOrCreateMessage | src/Command/SyncConversationsCommand.php:480-493 | a fresh entity whose fields are `SyncSpec.FindOrCreateMessage`'s row |
| SyncCommand.SyncConversationsCommand.SetMessageArrayFields | src/Command/SyncConversationsCommand.php:513-526 | sets each of the three JSON fields to the payload's array, or null; no other field changes |
| SyncCommand.SyncConversationsCommand.SetMessageFeedback | src/Command/SyncConversationsCommand.php:531-543 | sets only the rating, to `FeedbackRating` |
| SyncCommand.SyncConversationsCommand.MapMessageData | src/Command/SyncConversationsCommand.php:498-508 | the entity holds `MapMessage` of its old fields |
| SyncCommand.SyncConversationsCommand.SaveMessage | src/Command/SyncConversationsCommand.php:468-478 | the store becomes `SyncSpec.SaveMessage` of the old one |
| SyncCommand.SyncConversationsCommand.ProcessMessage | src/Command/SyncConversationsCommand.php:321-332 | a dry run leaves the store alone; otherwise the message is saved |
| SyncCommand.SyncConversationsCommand.ProcessMessageBatch | src/Command/SyncConversationsCommand.php:298-316 | its loop gives the store and count of `MessageBatch`; no request is made |
| SyncCommand.SyncConversationsCommand.ProcessConversationMessages | src/Command/SyncConversationsCommand.php:267-293 | the new state and result are those of `ConversationMessages` |
| SyncCommand.SyncConversationsCommand.ProcessConversation | src/Command/SyncConversationsCommand.php:240-251 | a dry run leaves the store alone; otherwise the conversation is saved |
| SyncCommand.SyncConversationsCommand.ProcessConversationBatch | src/Command/SyncConversationsCommand.php:209-235 | its loop gives the state and counts of `ConversationBatch`, including the exception that stops it |
| SyncCommand.SyncConversationsCommand.ProcessPaginatedConversations | src/Command/SyncConversationsCommand.php:136-173 | its `do … while ($lastId)` loop gives the state and counts of `Paginate`, and it terminates on every finite script |
| SyncCommand.SyncConversationsCommand.SyncAppConversations | src/Command/SyncConversationsCommand.php:108-124 | the state and outcome of `SyncApp` |
| SyncCommand.SyncConversationsCommand.Execute | src/Command/SyncConversationsCommand.php:50-95 | its loop over the apps gives the state, status and totals of `SyncSpec.Execute` |
| SyncProperties.MessageBatchCount | src/Command/SyncConversationsCommand.php:306-315 | a conversation's message count is the number of array-typed elements of its `data`, whatever the store holds |
| SyncProperties.ConversationMessagesCount | src/Command/SyncConversationsCommand.php:267-293 | no string id or no app id: 0 and nothing requested; otherwise the request succeeds exactly when the next reply is an array, and the count is then the number of array-typed elements of its `data`, or 0 when `data` is not an array |
| SyncProperties.ConversationStepCalls | src/Command/SyncConversationsCommand.php:273-292 | a conversation costs one messages request if it has a string id, and none otherwise |
| SyncProperties.ConversationBatchCount | src/Command/SyncConversationsCommand.php:218-234 | a completed page counts every array-typed element as a conversation, id or not; it makes one messages request per element with a string id |
| SyncProperties.PaginatePageCount | src/Command/SyncConversationsCommand.php:144-170 | a page whose batch completes adds the number of array-typed elements of its `data` to the conversation total; the walk continues from the page's cursor iff it is truthy |
| SyncProperties.MessageBatchFrame | src/Command/SyncConversationsCommand.php:298-332 | a message batch changes nothing in a dry run; it never touches committed rows or conversations; it keeps the store invariant |
| SyncProperties.ConversationMessagesFrame | src/Command/SyncConversationsCommand.php:267-293 | calls only grow; a dry run leaves the store; nothing is committed; the invariant is kept |
| SyncProperties.ConversationStepFrame | src/Command/SyncConversationsCommand.php:240-251 | the same, for a conversation with its messages |
| SyncProperties.ConversationBatchFrame | src/Command/SyncConversationsCommand.php:209-235 | the same, for a page |
| SyncProperties.PaginateFrame | src/Command/SyncConversationsCommand.php:136-173 | the same, for the whole walk: only the flush after it commits |
| SyncProperties.SyncAppEffect | src/Command/SyncConversationsCommand.php:108-131 | an app without an id throws before any request; otherwise `setApp` comes first; a dry run leaves the store; a completed live sync leaves nothing pending; the invariant is kept |
| SyncProperties.RunAppsEffect | src/Command/SyncConversationsCommand.php:75-86 | over all apps: a dry run leaves the store and the invariant is kept |
| SyncProperties.ExecuteDryRunLeavesStore | src/Command/SyncConversationsCommand.php:50-95 | `--dry-run` leaves the store exactly as it was, whatever the apps and the replies |
| SyncProperties.ExecuteKeepsStoreInv | src/Command/SyncConversationsCommand.php:50-95 | every run keeps each stored row under its own Dify id and attached to an app |
| SyncProperties.ConversationMessagesWalkCalls | src/Command/SyncConversationsCommand.php:280-282 | the only request made is the app's request for up to 1000 messages, without a cursor |
| SyncProperties.ConversationStepWalkCalls | src/Command/SyncConversationsCommand.php:240-251 | saving makes no request |
| SyncProperties.ConversationBatchWalkCalls | src/Command/SyncConversationsCommand.php:209-235 | a page makes only such message requests |
| SyncProperties.PaginateWalkCalls | src/Command/SyncConversationsCommand.php:144-170 | the walk's first request asks for the page at the given cursor; every page request is for the app, with the same limit |
| SyncProperties.ConversationMessagesAgree | src/Command/SyncConversationsCommand.php:267-293 | two stores, dry or not, give the same requests, replies and count |
| SyncProperties.ConversationBatchAgree | src/Command/SyncConversationsCommand.php:209-235 | the same, for a page |
| SyncProperties.PaginateAgree | src/Command/SyncConversationsCommand.php:136-173 | the same, for the whole walk |
| SyncProperties.RunAppsAgree | src/Command/SyncConversationsCommand.php:75-86 | the same, over all apps |
| SyncProperties.DryRunMatchesLiveRun | src/Command/SyncConversationsCommand.php:119-121 | a dry run makes exactly the requests of a live run, in the same order, with the same status and totals |
| SyncScenarios.TestDryRun | tests/Command/SyncConversationsCommandTest.php:127-162 | the tests' dry run with `--limit 50`: SUCCESS after `setApp` and exactly two requests, 1 conversation and 1 message counted, store untouched |
| SyncScenarios.NoAppsFails | tests/Command/SyncConversationsCommandTest.php:200-216 | no app: FAILURE, with nothing done |
| SyncScenarios.TestSync | tests/Command/SyncConversationsCommandTest.php:227-252 | syncing the tests' app with the canned reply, dry or live: the requests made and the resulting store |
| SyncScenarios.SaveTestConversation | src/Command/SyncConversationsCommand.php:423-463 | the tests' conversation is stored with every field of its payload, and the app id as user until the payload's user replaces it |
| SyncScenarios.TestLiveRun | src/Command/SyncConversationsCommand.php:108-124 | the same run without `--dry-run` commits that row and leaves nothing pending |
| SyncScenarios.LastPageOfOne | src/Command/SyncConversationsCommand.php:146-170 | a page with one conversation and a falsy next cursor ends the walk after two requests |
| SyncScenarios.ZeroCursorEndsWalk | src/Command/SyncConversationsCommand.php:170 | `has_more` true but a last id of `"0"`: the walk still stops, because `"0"` is false in PHP |
| SyncScenarios.AppFailsAfterSave | src/Command/SyncConversationsCommand.php:108-124 | an app whose messages request fails after a conversation was saved throws, leaving that row pending |
| SyncScenarios.EmptyAppFlushes | src/Command/SyncConversationsCommand.php:178-181 | an app whose first page is empty syncs nothing and, outside a dry run, flushes |
| SyncScenarios.MapTestConversation | tests/Command/SyncConversationsCommandTest.php:227-252 | mapping the tests' conversation payload onto a new row gives the expected stored row |
| SyncScenarios.RunTwoAppsFirstThrows | src/Command/SyncConversationsCommand.php:75-86 | when the first of two apps throws, the run ends in the second app's state, with only its counts |
| SyncScenarios.FailedAppWritesCommitLater | src/Command/SyncConversationsCommand.php:75-86 | the run succeeds with only the second app's counts, but the second app's flush commits the failed app's pending conversation |
| Entities.Conversation.constructor | src/Entity/Conversation.php:27-73 | a new entity: null app, inputs and introduction; every other field unassigned |
| Entities.Conversation.Load | src/Entity/Conversation.php:27-73 | the entity the repository returns holds exactly the stored row |
| Entities.Conversation.SetDifyConversationId | src/Entity/Conversation.php:80-83 | only the id changes; the getter returns the new value |
| Entities.Conversation.SetDifyApp | src/Entity/Conversation.php:90-93 | only the app changes (null clears it) |
| Entities.Conversation.SetName | src/Entity/Conversation.php:100-103 | only the name changes; the getter returns it |
| Entities.Conversation.SetInputs | src/Entity/Conversation.php:117-120 | only inputs change; an empty array stays distinct from null |
| Entities.Conversation.SetStatus | src/Entity/Conversation.php:127-130 | only the status changes; the getter returns it |
| Entities.Conversation.SetIntroduction | src/Entity/Conversation.php:137-140 | only the introduction changes |
| Entities.Conversation.SetUser | src/Entity/Conversation.php:147-150 | only the user changes; the getter returns it |
| Entities.Conversation.SetDifyCreatedAt | src/Entity/Conversation.php:157-160 | only the creation time changes; the getter returns it |
| Entities.Conversation.SetDifyUpdatedAt | src/Entity/Conversation.php:167-170 | only the update time changes; the getter returns it |
| Entities.ConversationRow.Valid | src/Entity/Conversation.php:27-73 | the `Assert` constraints: UUID id, an app, name 1..255, status 1..50, introduction null or at most 65535, user 1..100, both timestamps set and non-negative |
| Entities.Conversation.ToString | src/Entity/Conversation.php:172-175 | `Conversation[<id>]: <name>` from the entity's current fields, with `new` and `unnamed` for fields never set |
| Entities.ConversationLabels | src/Entity/Conversation.php:172-175 | `Conversation[<id>]: <name>`, with `new` and `unnamed` for fields never set |
| Entities.FreshConversationInvalid | src/Entity/Conversation.php:27-73 | a new entity, even one with an id, violates the constraints |
| Entities.SampleUuid | src/Entity/Conversation.php:27-32 | the tests' sample id is a UUID; one character short, it is not |
| Entities.ConversationMessage.constructor | src/Entity/ConversationMessage.php:27-83 | a new message: null app, inputs, rating, files and resources; every other field unassigned |
| Entities.ConversationMessage.Load | src/Entity/ConversationMessage.php:27-83 | the entity the repository returns holds exactly the stored row |
| Entities.ConversationMessage.SetDifyMessageId | src/Entity/ConversationMessage.php:90-93 | only the message id changes; the getter returns it |
| Entities.ConversationMessage.SetDifyConversationId | src/Entity/ConversationMessage.php:100-103 | only the conversation link changes; the getter returns it |
| Entities.ConversationMessage.SetDifyApp | src/Entity/ConversationMessage.php:110-113 | only the app changes (null clears it) |
| Entities.ConversationMessage.SetInputs | src/Entity/ConversationMessage.php:127-130 | only inputs change |
| Entities.ConversationMessage.SetQuery | src/Entity/ConversationMessage.php:137-140 | only the query changes; the getter returns it |
| Entities.ConversationMessage.SetAnswer | src/Entity/ConversationMessage.php:147-150 | only the answer changes; the getter returns it |
| Entities.ConversationMessage.SetFeedbackRating | src/Entity/ConversationMessage.php:157-160 | only the rating changes; any string is accepted |
| Entities.ConversationMessage.SetMessageFiles | src/Entity/ConversationMessage.php:174-177 | only the files change |
| Entities.ConversationMessage.SetRetrieverResources | src/Entity/ConversationMessage.php:191-194 | only the retriever resources change |
| Entities.ConversationMessage.SetUser | src/Entity/ConversationMessage.php:201-204 | only the user changes; the getter returns it |
| Entities.ConversationMessage.SetDifyCreatedAt | src/Entity/ConversationMessage.php:211-214 | only the creation time changes; the getter returns it |
| Entities.MessageRow.Valid | src/Entity/ConversationMessage.php:27-83 | the `Assert` constraints: UUID message and conversation ids, an app, query and answer 1..65535, rating null, `like` or `dislike`, user 1..100, creation time set and non-negative |
| Entities.ConversationMessage.ToString | src/Entity/ConversationMessage.php:216-219 | `Message[<id>]: ` followed by the whole query when it has at most 50 characters, otherwise its first 50; `new` and `no query` for fields never set |
| Entities.MessageLabels | src/Entity/ConversationMessage.php:216-219 | `Message[<id>]: ` followed by the whole query up to 50 characters, or exactly its first 50; `new` and `no query` for fields never set |
| Entities.RatingChoice | src/Entity/ConversationMessage.php:61-64 | the rating constraint admits null, `like` and `dislike`, and nothing else |
| Requests.GetConversationsRequest.Query | src/Request/GetConversationsRequest.php:35-54 | the keys are `user`, `limit`, `sort_by`, plus `last_id` iff a cursor is given |
| Requests.GetConversationsRoundTrip | src/Request/GetConversationsRequest.php:14-54 | path, method and options determine the request: decoding them gives it back |
| Requests.GetConversationsDefaults | src/Request/GetConversationsRequest.php:14-20 | defaults: no cursor, limit 20, sorted by `-updated_at`; the query then has no `last_id` |
| Requests.GetMessagesRequest.Query | src/Request/GetMessagesRequest.php:35-54 | the keys are `conversation_id`, `user`, `limit`, plus `first_id` iff given |
| Requests.GetMessagesRoundTrip | src/Request/GetMessagesRequest.php:14-54 | path, method and options determine the request |
| Requests.GetMessagesDefaults | src/Request/GetMessagesRequest.php:14-20 | defaults: no `first_id`, limit 20 |
| Requests.GetConversationVariablesRequest.RequestPath | src/Request/GetConversationVariablesRequest.php:23-26 | `/conversations/<id>/variables`, from which the id can be read back |
| Requests.GetConversationVariablesRequest.Query | src/Request/GetConversationVariablesRequest.php:36-58 | the keys are `user` and `limit`, plus `last_id` and `variable_name`, each independently iff given |
| Requests.GetConversationVariablesRoundTrip | src/Request/GetConversationVariablesRequest.php:14-58 | path, method and options determine the request |
| Requests.ChatMessageRequest.Body | src/Request/ChatMessageRequest.php:40-65 | the keys are `query`, `user`, `response_mode`, `inputs` and `auto_generate_name`; `conversation_id` is added iff given, `files` iff non-empty |
| Requests.ChatMessageRoundTrip | src/Request/ChatMessageRequest.php:14-65 | path, method and options determine the request |
| Requests.ChatMessageDefaults | src/Request/ChatMessageRequest.php:14-25 | defaults: `streaming`, no inputs, no conversation, no files, auto-generated name; the body then has only the five fixed keys |
| Requests.RenameConversationRequest.RequestPath | src/Request/RenameConversationRequest.php:22-25 | `/conversations/<id>/name`, from which the id can be read back |
| Requests.RenameConversationRequest.Body | src/Request/RenameConversationRequest.php:35-53 | the keys are `user` and `auto_generate`, plus `name` iff given |
| Requests.RenameConversationRoundTrip | src/Request/RenameConversationRequest.php:14-53 | path, method and options determine the request |
| Requests.RenameConversationDefaults | src/Request/RenameConversationRequest.php:14-20 | defaults: no name, no automatic naming; the body then has only `user` and `auto_generate` |
| Requests.DeleteConversationRequest.RequestPath | src/Request/DeleteConversationRequest.php:20-23 | `/conversations/<id>`, from which the id can be read back |
| Requests.DeleteConversationRequest.Body | src/Request/DeleteConversationRequest.php:33-45 | the body has exactly one key, `user` |
| Requests.DeleteConversationRoundTrip | src/Request/DeleteConversationRequest.php:14-45 | path, DELETE and options determine the request |
| Requests.GetSuggestedQuestionsRequest.RequestPath | src/Request/GetSuggestedQuestionsRequest.php:20-23 | `/messages/<id>/suggested`, from which the id can be read back |
| Requests.GetSuggestedQuestionsRequest.Query | src/Request/GetSuggestedQuestionsRequest.php:33-45 | the query has exactly one key, `user` |
| Requests.GetSuggestedQuestionsRoundTrip | src/Request/GetSuggestedQuestionsRequest.php:14-45 | path, GET and options determine the request |
| Requests.StopChatMessageRequest.RequestPath | src/Request/StopChatMessageRequest.php:20-23 | `/chat-messages/<task id>/stop`, from which the task id can be read back |
| Requests.StopChatMessageRequest.Body | src/Request/StopChatMessageRequest.php:33-45 | the body has exactly one key, `user` |
| Requests.StopChatMessageRoundTrip | src/Request/StopChatMessageRequest.php:14-45 | path, POST and options determine the request |

## Left out

- Network: the API client's `request`, `setApp` and `toArray`.
  - A response is a scripted reply: a decoded array, or `Broken` for the "no toArray" and "not an array" errors (src/Command/SyncConversationsCommand.php:374-381, 395-402).
  - An exhausted script also throws. Timeouts and HTTP errors are not distinguished.
  - The page walk terminates because each request consumes a reply. Termination against a live server is not claimed.
- App registry: `DifyAppService::getAppsToSync` is not part of this model. The resolved apps are an input of `Execute`, so the `app-id` argument is not modelled.
- Doctrine lookups: the store sees pending rows before committed ones. Doctrine's `findOneBy` queries the database and does not see entities persisted but not yet flushed. As a result:
  - a payload that repeats an unflushed id within one app updates one row here;
  - Doctrine would create a second entity in that case, and the flush would fail on the unique index.
- Doctrine entity identity: object identity and the identity map are not modelled. `Load` builds a fresh object holding the stored row, and the row, not the object, is what is stored.
- Validator: the `Assert` constraints are stated as `Valid()` predicates and proved about in lemmas. Their enforcement at flush time is not modelled, so a store may hold rows that violate them.
- Console output: titles, sections, error messages and option plumbing are not modelled. The only output kept is the 50-character preview, `MessagePreview`.
- Numbers:
  - `is_numeric` and `(int)` are modelled on integers and on strings of decimal digits with an optional sign. Floats, exponents, leading or trailing whitespace and overflowing strings are not modelled.
  - Integers are unbounded, so PHP's 64-bit limit on timestamps is not modelled.
- Characters: `substr` counts bytes in PHP and characters here. The two agree on ASCII text only.
- UUIDs: only the 8-4-4-4-12 hexadecimal layout is checked. Symfony's `Uuid` constraint also checks the version and variant digits.
- Request getters: each builder's getters return its constructor arguments. Here those arguments are the datatype's fields, so the getters are the field selectors and have no members of their own.
- Headers: `JsonHeaders` is the single `Content-Type: application/json` header. It is part of every request's options and is covered by the round-trip lemmas.
- Entity getters: `GetX` requires its field to be set, where PHP would throw on an uninitialized property. The setters' contracts state that the getter returns the value just set.
- Not part of this model:
  - the `SnowflakeKeyAware` and `TimestampableAware` traits (the entities' own primary key and audit timestamps);
  - the repositories' query helpers;
  - the data fixtures;
  - the bundle and dependency-injection wiring.
- SyncSpec.ConversationMessages, SyncSpec.ConversationStep and SyncSpec.ConversationBatch: their own contracts only bound the replies they consume. What they compute is stated by the `SyncProperties` lemmas about them, and by the `SyncCommand` methods proved equal to them.
- Cross-app writes: nothing clears the unit of work when an app throws. Rows that app persisted stay pending, and the next app's flush commits them (`SyncScenarios.FailedAppWritesCommitLater`).
- Store failures: persisting and flushing never fail here, and a closed EntityManager is not modelled. In PHP, an exception from `flush` drops that app's counts and closes the EntityManager for every later app. `SyncProperties.DryRunMatchesLiveRun` states that a dry run and a live run end with the same status and totals, and that holds only because `Flush` cannot fail.
- Duplicate keys: a decoded array is a list of entries that may repeat a key. `Php.Lookup` reads the first entry under a key, while `Values` iterates over all of them. A PHP array has unique keys, and `json_decode` keeps the last duplicate, so the model agrees with PHP only on replies without duplicate keys.
