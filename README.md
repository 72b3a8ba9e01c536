# databricks-chat-app, modelled in Dafny

This project models the core logic of a Databricks chat application. The application has
several Streamlit front ends, and each one chats with a model serving endpoint, logs
conversations to a SQL warehouse and names conversations. The model covers:

- the per-session conversation state (`AppStateManager`) and the two inline chat scripts;
- the bounding of the context window and the trigger that decides when the assistant replies;
- the parsing of `SERVING_ENDPOINTS_CSV` and the choice of the default endpoint;
- the serving utilities: the request payload, the reading of replies, the formatting of
  messages, the system prompt, the truncation by a character budget, the parameters for
  each model family, the endpoint probe and the retry loop;
- SQL literal escaping and the statements of the logging layer, over a warehouse made of
  three tables;
- identity resolution from forwarded headers and the environment;
- conversation titles, derived from the first prompt or asked of the model;
- the lakehouse front end with its retrieval helpers and upload pipelines;
- the history page's two-click delete.

Every module corresponds to one part of the program. Where the program changes state in
place, the model is a class whose methods state the whole new state. That covers the
session, the warehouse, the chat sessions, the lakehouse's effect log and the history
page. Pure helpers are functions whose contracts, or the lemmas beside them, state what they
promise. The network, the warehouse's answers, the clock, fresh
UUIDs, pandas and Spark become parameters: a function argument holds the value they
return or the exception they raise. Some effects are recorded in order in an effect log.

The code is modelled as written, including its edge cases. Three places where the code
does not do what it evidently intends are listed under "## Findings". Each is modelled
both as written and as corrected.

## Model

| member | source | states |
|---|---|---|
| AppState.InitKey | services/app_state.py:21-26 | a key that is already set keeps its value; a missing key gets its default |
| AppState.InitKeyIdempotent | services/app_state.py:19-39 | initialising a key a second time keeps the first value, whatever the second default |
| AppState.TitleAfterFirstExchange | services/app_state.py:111-113 | from a cleared conversation the new-conversation test fails with no message and with the prompt alone, and holds once the reply follows |
| AppState.AppStateManager.constructor | services/app_state.py:9-11 | a fresh session holds none of the manager's keys |
| AppState.AppStateManager.Initialize | services/app_state.py:13-17 | every absent key gets its default, present keys keep their values, and a second call changes nothing |
| AppState.AppStateManager.InitConversationState | services/app_state.py:19-26 | missing messages, id and title become `[]`, a fresh id and "New Conversation"; navigation and endpoint keys are untouched |
| AppState.AppStateManager.InitNavigationState | services/app_state.py:28-31 | a missing page becomes "chat"; nothing else changes |
| AppState.AppStateManager.InitModelEndpoints | services/app_state.py:33-39 | a missing selection becomes the id of the endpoint at the default index, or "" without endpoints; a present one is kept |
| AppState.AppStateManager.NavigateTo | services/app_state.py:46-53 | the page becomes current; nothing else changes |
| AppState.AppStateManager.AddMessage | services/app_state.py:60-62 | exactly one `{role, content}` goes on the end; earlier messages and the other keys are unchanged |
| AppState.AppStateManager.ClearConversation | services/app_state.py:64-68 | no messages, the placeholder title and the fresh id; afterwards no reply is due and the title trigger is off |
| AppState.AppStateManager.LoadConversation | services/app_state.py:86-91 | id, title and messages are exactly the arguments and the page is "chat" |
| AppState.AppStateManager.SetConversationId | services/app_state.py:74-76 | only the id changes |
| AppState.AppStateManager.SetChatTitle | services/app_state.py:82-84 | only the title changes |
| AppState.AppStateManager.SetSelectedEndpoint | services/app_state.py:98-100 | only the selected endpoint changes |
| AppState.AppStateManager.Exchange | services/app_state.py:103-109 | after a prompt and its reply on an alternating history of even length, the history still alternates and no reply is due |
| Auth.FirstUsable | auth_utils.py:30-37 | the value found is stripped and not empty |
| Auth.FirstUsableAt | auth_utils.py:30-37 | the first variant whose value is not blank gives the value, stripped |
| Auth.FirstUsableNone | auth_utils.py:30-37 | nothing is found exactly when no variant has a non-blank value |
| Auth.CacheFirst | auth_utils.py:35-36 | a found value is cached only under a key not cached yet |
| Auth.SetupKeeps | auth_utils.py:30-37 | no cached entry is ever overwritten |
| Auth.SetupOnlyKeys | auth_utils.py:15-30 | only keys of the header map are added |
| Auth.SetupHasFound | auth_utils.py:30-37 | every key with a usable variant ends up cached |
| Auth.SetupFills | auth_utils.py:30-37 | with distinct keys, a missing key gets exactly its first usable variant |
| Auth.SetupFixed | auth_utils.py:30-37 | a cache that already holds every findable key is left as it is |
| Auth.SetupKeepsAndFills | auth_utils.py:6-37 | `setup_request_context` keeps cached entries, fills each missing email, token or user key from its first usable header, and adds no other key |
| Auth.SetupIdempotent | auth_utils.py:6-37 | running the setup twice is running it once |
| Auth.AuthSession.constructor | auth_utils.py:11-12 | the session starts without an `auth_headers` cache |
| Auth.AuthSession.SetupRequestContext | auth_utils.py:6-37 | the cache becomes the setup of the old cache (empty when absent) |
| Auth.AuthSession.ScanVariants | auth_utils.py:31-37 | the loop returns the first usable variant, stripped |
| Auth.AuthSession.GetForwarded | auth_utils.py:41-72 | a cached value is returned unchanged; otherwise the first usable variable is returned and cached, and nothing is cached when none is usable; afterwards the key holds what the lookup gave, and no other key changes |
| Auth.AuthSession.ForwardedTwice | auth_utils.py:63-70 | once a value is found, the next lookup returns it whatever the environment then holds |
| Auth.SqlUser | auth_utils.py:133-146 | the SQL user unless the lookup failed or returned "" or "unknown_user" |
| Auth.UserId | auth_utils.py:174 | email, else SQL user, else forwarded user, else "unknown_user"; never empty, and "unknown_user" only when none is given or the chosen one is that text |
| Auth.AuthMode | auth_utils.py:148-158 | "USER" exactly when `RUN_SQL_AS_USER` is "1" and a token is forwarded, else "APP" |
| Auth.AuthSession.ForwardedValues | auth_utils.py:168-182 | the email, user and token lookups of `get_user_identity` each return what the cache, else the first usable variable, gave before the call; the second token lookup repeats the first; afterwards the cache holds those three values under `email`, `user` and `access_token` and every other key as before |
| Auth.AuthSession.GetUserIdentity | auth_utils.py:160-184 | the email, forwarded user and token are each the cached value or else the first usable variable; the user id follows the fallback order; the SQL user is looked up only with a warehouse id; the auth mode is `determine_auth_mode` of that token and `has_forwarded_token` is the token's truthiness; afterwards the cache holds the three values looked up under their keys and every other key as before |
| Auth.Masked | auth_utils.py:212-221 | an unset variable shows as None; a token longer than ten characters is cut to its first ten plus "..."; anything else is shown whole |
| Auth.MaskedTokenShowsPrefix | auth_utils.py:216-217 | a token variable never shows more than its first ten characters |
| Auth.DebugEnvironment | auth_utils.py:198-221 | one entry per checked variable, in list order, each masked |
| Auth.ValidateAuthSetup | auth_utils.py:232-265 | each recommendation is present exactly when its condition holds, in the order the checks run (email, logging, token), and nothing else is recommended |
| ChatApp.CallIfExists | app.py:70-72 | the attribute when it is a function; else the default when that is a function; else a function returning the default |
| ChatApp.CallIfExistsIgnoresData | app.py:70-72 | an attribute that is not a function is ignored exactly like a missing one |
| ChatApp.LookupsOfTheScript | app.py:359-362 | with `default=lambda: None`, a missing look-up reads as None and a present one as what it returns |
| ChatApp.AsValues | app.py:325 | each history entry becomes the `{role, content}` dictionary the script stores, in order |
| ChatApp.TitleAfterFirstReply | app.py:385 | in a cleared chat the title trigger is off after the prompt alone and on after its reply, and never on under another title |
| ChatApp.RequestFor | app.py:338-346 | the request names the selected endpoint and 400 tokens and carries the last `max_turns` messages, or all of them when `max_turns` is not positive |
| ChatApp.ServingError | app.py:353 | the failure text is `(serving error: ` then the error then `)` |
| ChatApp.ReplyOf | app.py:341-354 | a successful call gives the content and counts read from the reply; a failed call, or a failed reading of the counts, gives the serving-error text with zero tokens |
| ChatApp.ReplyOfCountsOnlyUsage | app.py:348-354 | a failed call, or usage that is not a dictionary, counts no tokens |
| ChatApp.UserId | app.py:362 | email, else SQL user, else "unknown_user"; never empty |
| ChatApp.ExchangeMessages | app.py:373-374 | the prompt row with no tokens, then the reply row with its counts; a content `_esc` cannot escape stops the rows there |
| ChatApp.ExchangeError | app.py:358-383 | the logging fails exactly when the prompt or the reply cannot be escaped, the prompt's error first |
| ChatApp.LogTables | app.py:358-383 | the message rows are appended after the old ones; one usage event is added when the logging got that far, none otherwise; old usage rows stay |
| ChatApp.LoggedPromptPrecedesReply | app.py:373-374 | a fully logged prompt is stored once, as the user's row, right before the assistant's row |
| ChatApp.LogExchange | app.py:358-383 | with the warehouse off nothing changes; with it on, the tables become the logged tables and the error is the logging error |
| ChatApp.NextTitle | app.py:385-392 | the title is kept unless the trigger holds; then it is the generated title of the first three messages with the first prompt's default title as fallback, at most 60 characters; a first message without `strip` raises |
| ChatApp.NextTitleFallsBackToPrompt | app.py:385-390 | when the title model fails, the chat is named after the first prompt's default title |
| ChatApp.NotConfiguredDisablesChat | app.py:84-85 | with no non-blank token the only entry is the unconfigured one and the selection is the empty id |
| ChatApp.ChatSession.constructor | app.py:74-93 | a session holding none of the keys, under the run's endpoint list and default id |
| ChatApp.ChatSession.InitSession | app.py:95-102 | every absent key gets its default, present keys are kept, and a second run changes nothing |
| ChatApp.ChatSession.Submit | app.py:324-326 | a prompt that is not blank goes on the end of the history, and a reply is then due after an even history; a blank one changes nothing |
| ChatApp.ChatSession.Respond | app.py:328-394 | without the trigger nothing changes; with it, the reply of the windowed request is appended, logged and the title updated; a bad `MAX_TURNS` raises before anything changes |
| ChatApp.ChatSession.AppendReply | app.py:356-392 | the reply goes on the end of the history, no reply is then due, and the exchange is logged and the title updated |
| ChatApp.ChatSession.LogAndRetitle | app.py:358-392 | the exchange is logged while a warehouse is configured, then the auto-title step runs |
| ChatApp.ChatSession.Retitle | app.py:385-392 | when the trigger holds the generated title replaces the old one and is saved while the warehouse is on |
| ChatApp.ChatSession.SaveTitle | app.py:501-504 | an empty entry becomes "Untitled"; the title is saved while the warehouse is on |
| ChatApp.ChatSession.ClearChat | app.py:159-162 | no messages, the "New Chat" title and the fresh id; afterwards neither trigger holds |
| ChatApp.ChatSession.SwitchModel | app.py:461-474 | the picked name's id becomes the selection, and only a change is saved while the warehouse is on |
| ChatApp.ChatSession.LoadConversation | app.py:432-437 | the stored messages as role and content, the id, the title or "Chat", and the stored model or the old selection |
| ChatApp.Loaded | app.py:434 | one `{role, content}` per stored row, in order |
| ChatApp.TitleTables | app.py:392 | only the conversation rows change, and their number stays |
| ClassicApp.HeaderOf | app/app.py:192-200 | a non-empty request header is the answer; otherwise the environment variable named by the upper-cased, underscored header, then the one under the header's own name |
| ClassicApp.HeaderValuesOf | app/app.py:203-205 | one resolved value per candidate key, in the order of the keys |
| ClassicApp.HeadersWithoutRequest | app/app.py:192-200 | without request headers the script resolves every header exactly as the shared database module does |
| ClassicApp.ForwardedHeader | app/app.py:202-214 | the loop returns the first candidate whose value is truthy, or None |
| ClassicApp.RequestEmailWins | app/app.py:202-207 | an email forwarded on the request wins over every environment variable |
| ClassicApp.SqlFetchOne | app/app.py:254-263 | a value exactly when logging is on, the query succeeds and the first row has a first column; that value is `rows[0][0]` |
| ClassicApp.CurrentUser | app/app.py:265-267 | always truthy: the fetched value when truthy, else `unknown_user` |
| ClassicApp.CurrentUserFromWarehouse | app/app.py:254-267 | a warehouse answering with a user name gives that name; with logging off the user is `unknown_user` |
| ClassicApp.EscapedText | app/app.py:269-270 | falsy values escape as the empty text and a string as itself; any other truthy value fails |
| ClassicApp.TurnReply | app/app.py:440-460 | a failed call, and a count that `int()` refuses, show the error text with zero tokens; a reply's content (or a non-dictionary message as text) and integer usage counts are taken as given, and a missing count is zero |
| ClassicApp.TurnReplyOfAnswer | app/app.py:448-452 | a chat-completions reply with a text answer and integer usage is shown and counted as it came |
| ClassicApp.LastNamed | app/app.py:325 | the last position holding the display name, or -1 when none does |
| ClassicApp.DisplayToId | app/app.py:325 | the name maps to an id exactly when some entry has that name, and then to the last such entry's id |
| ClassicApp.DisplayToIdDistinct | app/app.py:324-331 | with distinct display names, picking an entry's name selects that entry's id |
| ClassicApp.DisplayToIdSharedName | app/app.py:325 | two entries sharing a display name both select the later entry's id |
| Seqs.IndexOfKey | app/app.py:327 | the first position whose key is the one sought, or the length of the list when none has it (where `index` raises) |
| ClassicApp.CurrentIndex | app/app.py:326-329 | a valid position: the first entry with the selected id, or the default position when no entry has it |
| ClassicApp.ClassicChat.constructor | app/app.py:312-317 | a fresh session has no messages, a fresh conversation id and the default entry's id selected |
| ClassicApp.ClassicChat.SwitchModel | app/app.py:337-342 | the picked name's id becomes the selection; the conversation's model is updated only on a change with logging on, and without a warehouse connection the warehouse is untouched |
| ClassicApp.ClassicChat.Clear | app/app.py:405-408 | the history is emptied and a fresh conversation id assigned; the selection is kept |
| ClassicApp.ClassicChat.ChatTurn | app/app.py:428-482 | the prompt and the reply are appended; the model sees the context window of the history; the turn is logged only with logging on and a textual SQL user |
| ClassicApp.LogIfReachable | app/app.py:471-482 | the warehouse is untouched unless logging is on and the SQL user is text, and then it holds the turn's rows |
| ClassicApp.TurnMessages | app/app.py:288-293 | the prompt is always logged under `user`; the reply follows under `assistant` with its counts exactly when it is text |
| ClassicApp.TurnUsage | app/app.py:295-304 | one usage event, for the email or else the SQL user, with the reply's counts, exactly when the reply is text |
| ClassicApp.LogTurn | app/app.py:272-304 | the conversation is ensured, its model updated and the turn's messages and usage appended |
| ClassicApp.PromptIsSent | app/app.py:306-309 | the prompt of a turn always reaches the model as the newest message of the window |
| ConversationService.LoggedMessagesAreLastTwo | services/conversation_service.py:35-43 | exactly the last two messages are logged, in order, under the conversation and as `ok`; only the second carries the token counts; a shorter history logs none |
| ConversationService.LoggedUsage | services/conversation_service.py:45-54 | one usage event when a turn was logged, for the identity's user and the endpoint, with the email and SQL user as metadata |
| ConversationService.LogConversation | services/conversation_service.py:12-56 | nothing without a warehouse id; an identity failure is re-raised with the `Failed to log conversation: ` prefix before any write; otherwise the conversation is ensured as `New Conversation`, its model updated, and the turn's messages and usage appended |
| ConversationService.LoggedTurnIsLast | services/conversation_service.py:36-43 | after a logged turn the conversation's stored messages end with the turn's two messages |
| ConversationService.SimpleTitle | services/conversation_service.py:66-69 | a title exactly when the content is a string; any other content fails on `split` |
| ConversationService.SimpleTitleShape | services/conversation_service.py:67-69 | the title ends in `...` exactly when the content has more than six words, and what precedes it splits back into the first six words |
| ConversationService.GenerateTitle | services/conversation_service.py:58-70 | no messages give `New Conversation`; a first message that is not a dictionary raises; when its content has a default title, that is the fallback of the model's title |
| ConversationService.GenerateTitleIsAutoTitle | services/conversation_service.py:58-70 | a non-empty history is titled exactly when its first message is a dictionary whose content has a default title, and then by the model's title or that fallback, at most 60 characters; the simple-title branch never yields a title |
| ConversationService.GenerateTitleEmpty | services/conversation_service.py:70 | an empty history is titled `New Conversation` |
| ConversationService.Column | services/conversation_service.py:91 | `m[key]` gives the row's value exactly when the key is present, and a `KeyError` otherwise |
| ConversationService.Project | services/conversation_service.py:91 | a row projects exactly when it has both a role and a content, to a dictionary of just those two in that order |
| ConversationService.ProjectEntry | services/conversation_service.py:91 | a role/content dictionary projects to itself |
| ConversationService.LoadConversationMessages | services/conversation_service.py:88-91 | loading succeeds exactly when every row projects; the result has one projected row per fetched row, in order |
| ConversationService.LoadStoredMessages | services/conversation_service.py:88-91 | messages stored as role/content dictionaries load back unchanged |
| ConversationService.LoadIdempotent | services/conversation_service.py:88-91 | loading already loaded messages gives them back unchanged |
| ConversationService.GetConversations | services/conversation_service.py:72-86 | no conversations without a warehouse id; otherwise exactly the listing for the identity's user |
| ConversationService.GetAnalyticsData | services/conversation_service.py:97-111 | the empty totals with no breakdowns without a warehouse id; otherwise the totals and both breakdowns built for the identity's user |
| Db.ConnOkFromEnv | db.py:42-43 | `_conn_ok()` holds exactly when `ENABLE_LOGGING` is unset or `1` and `DATABRICKS_WAREHOUSE_ID` is non-empty |
| Db.SettingsFrom | db.py:10-14 | logging is on exactly when `ENABLE_LOGGING` is `1` (by default it is); the warehouse id defaults to empty, the catalog to `shared` and the schema to `app` |
| Db.EnvKey | db.py:24 | the environment name of a header keeps its length and has no dash |
| Db.GetHeader | db.py:22-25 | the variable under the upper-cased, underscored name when it is non-empty, else the one under the raw name |
| Db.FirstGiven | db.py:28-32 | None exactly when no candidate is present and non-empty; otherwise a candidate that is, with none before it |
| Db.HeaderValues | db.py:28-29 | one resolved header per candidate key, in the order of the keys |
| Db.FirstHeader | db.py:27-39 | the loop returns the first present, non-empty header in list order, or None |
| Db.FirstGivenAt | db.py:28-32 | the first given value is the one at the first index that holds one |
| Db.ForwardedEmail | db.py:27-32 | the first non-empty email header in list order, never empty |
| Db.ForwardedToken | db.py:34-39 | the first non-empty token header in list order, never empty |
| Db.RowsToDictsSpec | db.py:82-94 | one dictionary per fetched row, in order |
| Db.RowsToDicts | db.py:82-94 | the loop builds exactly the specified dictionaries: dictionary rows pass through, positional rows are keyed by column |
| Db.ColumnKeys | db.py:90-91 | the key of each position is its column name, or `c{i}` past the described columns |
| Db.RowDictContents | db.py:89-92 | with distinct keys, a positional row becomes a dictionary with one key per value, in order, each holding its value |
| Db.RowDictStep | db.py:90-92 | filling one more positional value appends its key and leaves the earlier keys as they were |
| Db.UndescribedColumns | db.py:91 | values past the described columns get the keys `c{i}` |
| Db.SqlQuery | db.py:96-106 | no rows when logging is off or the query fails; otherwise the fetched rows as dictionaries |
| Db.FetchOne | db.py:108-113 | None for no rows; otherwise the first value of the first row, and an `IndexError` when that row is empty |
| Db.CurrentUser | db.py:115-117 | the fetched value when truthy, else `unknown_user`; always truthy, and failing only when the fetch fails |
| Db.WhereConditions | db.py:170-177 | the loop of appends builds exactly the specified conditions |
| Db.WhereSpec | db.py:170-177 | `1=1` first; the user filter only for a non-empty user; the title-or-model match for a non-empty search; the content match last, only with a search and `include_content` |
| Db.WhereConditionsPresent | db.py:173-176 | a message-content condition is present exactly when there is a search text and `include_content` is set |
| Db.WhereUnfiltered | db.py:170-178 | with no user and no search the clause is just `1=1` |
| Db.DeleteStatements | db.py:211-216 | three statements: usage events, then messages, then conversations, each for the escaped id |
| Db.DeleteTargetsConversation | db.py:214-216 | each delete statement's literal reads back as exactly the conversation id, with nothing after it |
| Db.Warehouse.constructor | db.py:10-14 | a warehouse starts with the given settings and empty tables |
| Db.Warehouse.EnsureConversation | db.py:123-134 | nothing with logging off; otherwise one more conversation row with the identity's meta map; the other tables are unchanged |
| Db.Warehouse.UpdateConversationModel | db.py:136-139 | nothing with logging off; otherwise the conversation's rows carry the new model |
| Db.Warehouse.UpdateConversationTitle | db.py:141-144 | nothing with logging off; otherwise the conversation's rows carry the new title |
| Db.Warehouse.LogMessage | db.py:146-152 | nothing with logging off; otherwise one message row appended |
| Db.Warehouse.LogUsage | db.py:154-165 | nothing with logging off; otherwise one usage event appended with the identity's meta map |
| Db.Warehouse.DeleteConversation | db.py:211-216 | nothing with logging off; otherwise no table keeps a row of the conversation and every other row stays |
| Db.Warehouse.ConversationMessages | db.py:200-209 | nothing with logging off; otherwise exactly the stored messages of the conversation |
| Db.MessagesOf | db.py:200-209 | exactly the rows of the conversation, never more than there are |
| Db.MessagesOfAppend | db.py:200-209 | messages logged one after another read back in that order |
| Db.RowsWithout | db.py:211-216 | after a delete by conversation id a table holds exactly the rows of other conversations |
| Db.Updated | db.py:136-144 | an update keeps every row, its order and its conversation id, applies the change to exactly the rows of that conversation and leaves the others as they were |
| Endpoints.ConfigFrom | services/model_service.py:11-12 | without `SERVING_ENDPOINTS_CSV` the list setting falls back to the default endpoint, which itself defaults to empty |
| Endpoints.NonBlank | services/model_service.py:15 | never more pieces than went in; each kept piece is non-empty and trimmed |
| Endpoints.NoTokensIffAllBlank | services/model_service.py:15-23 | the list is empty, and the fallback entry used, exactly when every comma-separated piece is blank |
| Endpoints.TokensOfJoin | services/model_service.py:15 | trimmed, non-blank tokens without commas, joined with commas, split back into themselves in order |
| Endpoints.NonBlankOfTrimmed | services/model_service.py:15 | trimming and dropping blanks keeps pieces that are already trimmed and non-blank |
| Endpoints.ParseAll | services/model_service.py:14-20 | one endpoint per token, in token order |
| Endpoints.ParseTokenAtFirstBar | services/model_service.py:16-18 | a token is cut at its first `\|` only: the id is the trimmed text before it and the name the trimmed rest, further bars included |
| Endpoints.ParseTokenPlain | services/model_service.py:19-20 | a trimmed token without `\|` is both the id and the display name |
| Endpoints.ParseRendered | services/model_service.py:16-18 | writing an endpoint as `id\|name` and parsing it gives the endpoint back when the id has no bar and both parts are trimmed |
| Endpoints.ParseEndpoints | services/model_service.py:14-20 | the append loop produces exactly one endpoint per non-blank token, in order |
| Endpoints.ParseTokens | services/model_service.py:15-20 | the loop over the tokens appends each parsed token in turn |
| Endpoints.ParseAllSnoc | services/model_service.py:15-20 | parsing one more token appends its endpoint |
| Endpoints.EndpointList | services/model_service.py:22-23 | the list is never empty |
| Endpoints.DefaultIndex | services/model_service.py:26-31 | the first position whose id equals a non-empty configured default, else 0 |
| Endpoints.DefaultIndexInRange | services/model_service.py:26-31 | the default position is a valid index into a non-empty list |
| Endpoints.DefaultIndexSelects | services/model_service.py:26-31 | the entry at the default position carries the default selection: the configured default when it is listed, else the first id |
| Endpoints.AvailableEndpoints | services/model_service.py:9-33 | the parsed list or exactly `[{"id": "", "name": fallback}]` when no token is non-blank, with a valid default position that is the first match of the configured default |
| Endpoints.DefaultSelectedId | services/app_state.py:33-39 | a fresh session selects the id at the default position |
| Endpoints.RequiredEndpoints | app/app.py:158-176 | the classic script stops exactly when no token is non-blank; otherwise it has the parsed list and a valid default position |
| LakehouseApp.AllowList | apps/streamlit_app/app.py:42 | every entry of the allow list is non-empty and trimmed |
| LakehouseApp.AllowListDefault | apps/streamlit_app/app.py:42 | without `APP_ALLOWED_MODEL_IDS` the allow list is `sonnet-4` alone |
| LakehouseApp.AllowListOfJoin | apps/streamlit_app/app.py:42 | trimmed, non-blank ids without commas, written with commas, read back as themselves in order |
| LakehouseApp.AllowListEmptyIff | apps/streamlit_app/app.py:42 | the allow list is empty exactly when every comma-separated piece is blank |
| LakehouseApp.StrsHas | apps/streamlit_app/app.py:50 | an id is in the configured allow list exactly when it is among the parsed ids |
| LakehouseApp.EnvConfig | apps/streamlit_app/app.py:39-57 | the fallback configuration carries the parsed allow list, and the catalog, schema and volume default to `app_catalog`, `app` and `user_files` |
| LakehouseApp.DefaultModelFields | apps/streamlit_app/app.py:60-69 | the fallback catalog entry's `id` is `APP_DEFAULT_MODEL_ID` (default `sonnet-4`) and it is marked allowed |
| LakehouseApp.AllowedModels | apps/streamlit_app/app.py:164-169 | never more models than the catalog holds |
| LakehouseApp.AllowedModelsMembers | apps/streamlit_app/app.py:164-169 | a model is offered exactly when it is in the catalog and either its id is in a non-empty allow list or, with an empty allow list, its `allowed` flag (default false) is true |
| LakehouseApp.AllowedModelsAppend | apps/streamlit_app/app.py:168-169 | filtering keeps catalog order: filtering two parts gives the two filtered parts in order |
| LakehouseApp.EnvFallbackModels | apps/streamlit_app/app.py:42-69 | in the environment fallback the default model is offered exactly when the allow list is empty or names it, and otherwise nothing is offered |
| LakehouseApp.EnvFallbackDefault | apps/streamlit_app/app.py:42-61 | with neither variable set the catalog's only model is offered |
| LakehouseApp.WithDefaultsKeeps | apps/streamlit_app/app.py:82-84 | a key that is already set keeps its value |
| LakehouseApp.WithDefaultsKeys | apps/streamlit_app/app.py:82-84 | the keys afterwards are the keys before plus the keys of the defaults |
| LakehouseApp.WithDefaultsFills | apps/streamlit_app/app.py:82-84 | a missing key gets its default |
| LakehouseApp.WithDefaultsComplete | apps/streamlit_app/app.py:82-84 | when every default's key is set, the state is unchanged |
| LakehouseApp.WithDefaultsIdempotent | apps/streamlit_app/app.py:73-84 | writing the defaults twice is writing them once |
| LakehouseApp.SessionDefaultsDistinct | apps/streamlit_app/app.py:74-81 | the six session defaults name six different keys |
| LakehouseApp.SessionStateFilled | apps/streamlit_app/app.py:73-84 | afterwards every session key is set: earlier values are kept and each missing key holds its default |
| LakehouseApp.Session.constructor | apps/streamlit_app/app.py:73 | a session starts from the given state |
| LakehouseApp.Session.EnsureSessionState | apps/streamlit_app/app.py:73-84 | the loop writes exactly the missing defaults, in order |
| LakehouseApp.MessageLiteralCons | apps/streamlit_app/app.py:157 | the two replacements escape one character at a time: a dollar gains a backslash, a quote is doubled |
| LakehouseApp.MessageLiteralHead | apps/streamlit_app/app.py:157 | an escaped message never starts with a dollar |
| LakehouseApp.MessageLiteralDollarsEscaped | apps/streamlit_app/app.py:157 | every dollar of an escaped message has a backslash right before it |
| LakehouseApp.MessageLiteralNoDoubleDollar | apps/streamlit_app/app.py:157-160 | an escaped message has no two adjacent dollars, so it cannot close the `$$` literal early |
| LakehouseApp.MessageLiteralReadsBack | apps/streamlit_app/app.py:157-160 | reading `\$` as a dollar and `''` as a quote gives the original message back |
| LakehouseApp.MessageLiteralInjective | apps/streamlit_app/app.py:157 | different messages are stored as different texts |
| LakehouseApp.MessageLiteralPlain | apps/streamlit_app/app.py:157 | text without dollars or quotes is stored as it is |
| LakehouseApp.TblParts | apps/streamlit_app/app.py:93-94 | a table name splits back at its dots into catalog, schema and name when none of them holds a dot |
| LakehouseApp.VolRootIsUploadRoot | apps/streamlit_app/app.py:87-91 | the front end's user folder is exactly the folder the upload pipeline writes into |
| LakehouseApp.ApplyTheme | apps/streamlit_app/app.py:108-113 | fails exactly when the theme or its colours are not dictionaries; each colour and the radius is the theme's value when present and its default otherwise |
| LakehouseApp.FallbackThemeIsDefault | apps/streamlit_app/app.py:106-113 | the fallback theme styles the page exactly as an empty theme: with the four defaults |
| LakehouseApp.LoadMessages | apps/streamlit_app/app.py:141-147 | loading fails exactly when a row lacks its role or content; otherwise one role/content entry per row, in stored order |
| LakehouseApp.ContextOfRows | apps/streamlit_app/app.py:230-231 | the context is the system prompt and, after it, every stored row's role and content in order |
| LakehouseApp.LastWithId | apps/streamlit_app/app.py:234 | the last catalog position carrying the id, or none exactly when no entry carries it |
| LakehouseApp.ResolveModel | apps/streamlit_app/app.py:234-237 | fails when an entry has no id or the selection is not in the catalog; otherwise the endpoint of the last entry with that id, and `openai-chat` when it names no schema |
| LakehouseApp.ResolveLaterWins | apps/streamlit_app/app.py:234-237 | when entries share an id, the later entry's endpoint and schema are used |
| LakehouseApp.NewChatModel | apps/streamlit_app/app.py:179-181 | a truthy selection is kept; otherwise the first allowed model's id, or empty with none allowed; a first allowed model without an id fails either way |
| LakehouseApp.Session.NewChat | apps/streamlit_app/app.py:176-182 | the fresh id becomes current; on success the model choice is stored and the row to insert is titled `New Chat` under the session's tenant |
| LakehouseApp.ChatTurn | apps/streamlit_app/app.py:218-244 | nothing without a prompt and a selected model; otherwise the prompt is stored first, and a failed INSERT of it ends the turn with its error; only messages whose INSERT succeeded are stored; the reply is stored exactly when the request was sent and nothing failed, under the prompt's conversation id; the request is sent exactly when every step before it succeeds, and carries the context of the stored rows, the selected model's route and the session's `max_tokens` and `temperature`; a text reply with dictionary usage is stored exactly when its INSERT succeeds, and otherwise that INSERT's error ends the turn; the stored reply reads back as the content, with the usage counts defaulting to 0 |
| ModelService.SlicePrefix | services/model_service.py:46 | `v[:n]` keeps the first `n` characters of a string or items of a list, and fails on anything else |
| ModelService.TestEndpoint | services/model_service.py:35-49 | an empty name gives `(False, "No endpoint specified")` without a call; a failed call gives the exception text; a success reports at most 40 characters of the content, or `OK` when the reply has none |
| ModelService.TestEndpointTruncates | services/model_service.py:46-47 | a successful probe of a text reports exactly its first 40 characters |
| ModelService.MaxTurns | services/model_service.py:57 | unset and empty both mean 12; any other setting is its integer value |
| ModelService.TokenCount | services/model_service.py:68-69 | a count is 0 when the usage is not a dictionary or lacks the key, and the stored integer otherwise |
| ModelService.ReadReply | services/model_service.py:67-69 | the reply text is the message's content (`""` when absent) or the message as text; the counts are read as above, and a count `int()` refuses is the error |
| ModelService.GenerateResponse | services/model_service.py:51-71 | an empty endpoint name raises `No endpoint configured`; an unreadable `MAX_TURNS` and a failed serving call raise their errors; otherwise the result is the served reply of the trailing window of `MAX_TURNS` messages, read as `ReadReply` reads it, with counts 0 when the usage is not a dictionary |
| ModelService.GenerateResponseDefaultWindow | services/model_service.py:57-58 | with `MAX_TURNS` unset the result is the served reply of the last twelve messages (all, when fewer), or the serving error; the window ends with the newest message |
| Rag.WClient | apps/streamlit_app/inference/rag.py:5-10 | a client exactly when both the host and the token resolve to non-empty text (the `APP_` variable first), built from those two |
| Rag.HostToken | apps/streamlit_app/inference/rag.py:45-48 | fails only without any host variable; otherwise the host without trailing slashes and the token as found, possibly missing |
| Rag.Ws | inference/rag.py:3-8 | refuses unless both host and token are non-empty; otherwise the token and the host with exactly its trailing slashes removed |
| Rag.WsAgreesWithHostToken | inference/rag.py:3-8 | where both settings are present the two credential readers agree; `_ws` refuses only where `_host_token` would go on with an empty host or no token |
| Rag.InvocationUrl | inference/rag.py:12 | the URL is the host, then `/serving-endpoints/`, the endpoint and `/invocations` |
| Rag.OneSlashBeforePath | inference/rag.py:8-12 | a host stripped of trailing slashes joins the path with exactly one slash |
| Rag.DefaultPayload | inference/rag.py:15-19 | exactly the keys `messages`, `max_tokens` and `temperature`, in that order, holding the given values |
| Rag.AnthropicMessage | inference/rag.py:22-26 | a message becomes `role` (default `user`) and `content`, a string content wrapped as one text block and any other content passed through |
| Rag.AnthropicMessages | inference/rag.py:28 | defined exactly when every message is a dictionary; never longer than the input, and every message sent has the system, user or assistant role |
| Rag.AnthropicMessagesAppend | inference/rag.py:28 | mapping two parts gives the two mapped parts in order |
| Rag.AnthropicMessagesOne | inference/rag.py:28 | a system, user or assistant message is kept as its mapped form; any other is dropped |
| Rag.Payload | inference/rag.py:14-33 | `openai-chat` sends the three fields; `anthropic` the filtered, wrapped messages; any other schema the raw template when truthy, else the three fields |
| Rag.ExtractResponse | inference/rag.py:37-44 | a body that is not a dictionary gives `("", {})`; the first choice's message content, or `output_text` when that is falsy; the usage, or `{}` when falsy; an empty `choices` list fails |
| Rag.ExtractChatCompletion | inference/rag.py:42-43 | a chat-completions reply with non-empty text gives that text and its usage, whatever else the body holds |
| Rag.ExtractFallsBackToOutputText | inference/rag.py:42 | an empty first-choice content falls back to `output_text` |
| Rag.Invoke | inference/rag.py:11-44 | the payload for the schema is posted to the endpoint's URL; a failed post is the error, otherwise the reply is extracted |
| Rag.CallLlm | apps/streamlit_app/inference/rag.py:50-81 | fails without a host; otherwise the request built from `_host_token`'s host and bearer token |
| Rag.CallLlmChecked | inference/rag.py:10-44 | fails unless host and token are both present; otherwise the request built from `_ws`'s host and token |
| Rag.CallsAgreeWhenConfigured | inference/rag.py:10-44 | with both settings present the two packages send the same request and read the same reply |
| Rag.SqlParams | apps/streamlit_app/inference/rag.py:26 | no parameters without a dictionary; otherwise one `{"name", "value"}` record per entry, in order |
| Rag.EarlyWarehouseId | apps/streamlit_app/inference/rag.py:12-16 | an id exactly when `APP_SQL_WAREHOUSE_ID` or `SQL_WAREHOUSE_ID` is non-empty |
| Rag.WarehouseIdOf | apps/streamlit_app/inference/rag.py:83-96 | the explicit id wins; otherwise, with a name, the id of the first warehouse so named, failing when none is; otherwise an error |
| Rag.LaterWarehouseIdExtendsEarlier | apps/streamlit_app/inference/rag.py:83-96 | the overriding definition answers wherever the first one (lines 12-16) did, and otherwise only with a listed warehouse found by name |
| Rag.WarehouseId | apps/streamlit_app/inference/rag.py:83-96 | the loop over the warehouse list gives exactly the specified id or error |
| Rag.SqlExec | apps/streamlit_app/inference/rag.py:18-28 | the client, then the warehouse id, then the statement with its parameters; the first failure is the error |
| Rag.Iterated | apps/streamlit_app/inference/rag.py:35-36 | a list iterates over its items; a number, boolean or `None` cannot be iterated |
| Rag.ColumnName | apps/streamlit_app/inference/rag.py:33 | a column description's string `name`; a value that is not a dictionary fails |
| Rag.ColumnNames | apps/streamlit_app/inference/rag.py:33 | one name per column description, in order |
| Rag.RowOfAbsent | apps/streamlit_app/inference/rag.py:36 | a key outside the zipped columns is not in the row |
| Rag.RowOfKeys | apps/streamlit_app/inference/rag.py:36 | with distinct column names, the row's keys are the zipped columns in order |
| Rag.RowOfValue | apps/streamlit_app/inference/rag.py:36 | with distinct column names, each zipped column holds the value in its position |
| Rag.RowsOf | apps/streamlit_app/inference/rag.py:35-37 | one row per `data_array` entry |
| Rag.RowsOfPrefixErr | apps/streamlit_app/inference/rag.py:35-37 | the first entry that cannot be iterated stops the loop with its error |
| Rag.RowsOfEntries | apps/streamlit_app/inference/rag.py:35-37 | each row is the zip of the column names with its own entry |
| Rag.NoResultNoRows | apps/streamlit_app/inference/rag.py:32-38 | a reply without a `result` gives no rows |
| Rag.CollectRows | apps/streamlit_app/inference/rag.py:30-38 | the loop gives exactly the specified rows |
| Rag.SqlFetchAll | apps/streamlit_app/inference/rag.py:30-38 | a missing client fails; otherwise the rows of the executed statement's result |
| Rag.CurrentUserOf | apps/streamlit_app/inference/rag.py:42 | `unknown_user` for no rows; otherwise the first row's `user`, failing when it has none |
| Rag.CurrentUserFromReply | apps/streamlit_app/inference/rag.py:40-42 | the reply to `SELECT current_user() AS user` yields the name it carries |
| Rag.GetCurrentUser | apps/streamlit_app/inference/rag.py:40-42 | a missing client fails; otherwise the user of the fetched rows |
| ServingUtils.ErrorReply | app/model_serving_utils.py:60-74 | a failure reply is an assistant message whose content is the given text, with all three usage counts zero |
| ServingUtils.UpdateGet | app/model_serving_utils.py:76-94 | after `dict.update` a key reads the keyword argument's value when one was passed and the original value otherwise |
| ServingUtils.PayloadBase | app/model_serving_utils.py:83-88 | the base payload has exactly the keys messages, max_tokens, temperature and stream, carrying the arguments and stream set to false |
| ServingUtils.PreparePayload | app/model_serving_utils.py:76-94 | the payload keeps the four base keys, every extra keyword overrides its key, and a base key not overridden keeps its argument |
| ServingUtils.PayloadKeys | app/model_serving_utils.py:76-94 | a key is in the payload exactly when it is a base key or an extra keyword |
| ServingUtils.FirstChoice | app/model_serving_utils.py:100 | `choices[0]` is the first element of a non-empty list |
| ServingUtils.GetAttr | app/model_serving_utils.py:100 | `.get` succeeds exactly on a dictionary and returns the value under the key or the default |
| ServingUtils.ParseResponse | app/model_serving_utils.py:96-137 | as written: a dictionary without choices always parses, with choices it parses exactly when the first choice is a dictionary, and a string parses exactly when it mentions neither "choices" nor "response"; the reply is the first choice's `message` (default `{}`) with `usage` (default `{}`), or the `response` value as an assistant message with `usage` (default `{}`), or the first truthy of `content`, `text`, `output`, else `str(result)`, as an assistant message with `usage` (default zero counts), or the string itself as an assistant message |
| ServingUtils.PlainTextMentioningResponseFails | app/model_serving_utils.py:107-122 | the plain-text reply "my response" fails as written but is read as the assistant's text once the string test runs first |
| ServingUtils.ParseResponseFixed | app/model_serving_utils.py:115-122 | every string is the assistant's text with zero usage; other bodies are read as written |
| ServingUtils.ParseFixedAgrees | app/model_serving_utils.py:96-137 | the two readings agree on every body except strings that mention "choices" or "response" |
| ServingUtils.ParseChatCompletion | app/model_serving_utils.py:99-104 | a chat-completions body yields its first choice's message and its usage |
| ServingUtils.QueryEndpoint | app/model_serving_utils.py:28-74 | a failed request gives "Error calling model endpoint: …", a body `_parse_response` as written rejects "Unexpected error: …", and otherwise its parsed reply |
| ServingUtils.QueryEndpointFixed | app/model_serving_utils.py:52-74 | over the corrected parse, every plain-text body is the assistant's reply; any other outcome is read as written |
| ServingUtils.QueryEndpointMentioningResponse | app/model_serving_utils.py:57 | the plain-text answer "my response" is an "Unexpected error" reply as written and the answer itself once corrected |
| ServingUtils.QueryFailureIsAssistantText | app/model_serving_utils.py:59-74 | every failure reads as an assistant message with zero usage; the call never raises |
| ServingUtils.UnreachableEndpointPasses | app/model_serving_utils.py:170-186 | as written, an endpoint whose request fails passes the probe, because the error text is non-empty content; the corrected probe fails it |
| ServingUtils.TestEndpointAsWritten | app/model_serving_utils.py:170-186 | every failed request and every body the parse rejects passes the probe; a readable reply passes exactly when its content is non-empty |
| ServingUtils.TestEndpointFixed | app/model_serving_utils.py:170-186 | the probe passes only when the endpoint answered with a readable reply, and then the as-written probe passes too |
| ServingUtils.TestEndpointAgreesOnAnswers | app/model_serving_utils.py:170-186 | on an endpoint that answers with a readable body the two probes agree |
| ServingUtils.FormatAll | app/model_serving_utils.py:268-285 | never longer than the history, and every message kept has the user, assistant or system role |
| ServingUtils.FormatAllAppend | app/model_serving_utils.py:279-284 | formatting distributes over concatenation, one entry at a time |
| ServingUtils.FormatChatMessages | app/model_serving_utils.py:268-285 | messages that already have chat roles format back to themselves |
| ServingUtils.FormatOfMessage | app/model_serving_utils.py:280-283 | the dictionary of a chat message has a chat role and formats back to the message |
| ServingUtils.FormatIdempotent | app/model_serving_utils.py:268-285 | formatting a formatted history changes nothing |
| ServingUtils.FormatDropsOtherRoles | app/model_serving_utils.py:280 | an entry without one of the three roles is dropped |
| ServingUtils.FormatMessagesForChat | app/model_serving_utils.py:268-285 | the loop returns the formatted history |
| ServingUtils.WithSystem | app/model_serving_utils.py:287-306 | the system prompt comes first, replacing a leading system message or in front of the whole conversation |
| ServingUtils.WithSystemTwice | app/model_serving_utils.py:287-306 | adding a system prompt twice leaves one system message, carrying the later prompt |
| ServingUtils.AddSystemMessage | app/model_serving_utils.py:287-306 | the result holds the conversation with the prompt first; a leading system message is overwritten in the caller's list, which is returned, otherwise a new list is returned and the caller's is unchanged |
| ServingUtils.Systems | app/model_serving_utils.py:325 | only system messages, never more than the conversation |
| ServingUtils.Others | app/model_serving_utils.py:326 | only non-system messages, never more than the conversation |
| ServingUtils.FiltersPartition | app/model_serving_utils.py:325-329 | the two filters split the conversation: their counts and character totals add up to the conversation's |
| ServingUtils.SpanIsContentLength | app/model_serving_utils.py:329-337 | the running total over a range equals the content length of that slice |
| ServingUtils.Keep | app/model_serving_utils.py:332-339 | taking messages newest first, never keeps more than are offered |
| ServingUtils.KeepFits | app/model_serving_utils.py:332-339 | the kept messages fit the budget, and the next older one would not |
| ServingUtils.InsertAt | app/model_serving_utils.py:336 | `list.insert` with a negative index grows the list by one |
| ServingUtils.NewestFirstAt | app/model_serving_utils.py:332-336 | the kept messages come out newest first |
| ServingUtils.KeptCount | app/model_serving_utils.py:332-339 | never more than the non-system messages |
| ServingUtils.KeptStep | app/model_serving_utils.py:332-337 | one more kept message preserves the loop state of the corrected truncation |
| ServingUtils.KeptDone | app/model_serving_utils.py:338-341 | the corrected loop ends with the corrected truncation |
| ServingUtils.AsWrittenStep | app/model_serving_utils.py:332-337 | one more kept message preserves the loop state of the truncation as written |
| ServingUtils.AsWrittenDone | app/model_serving_utils.py:338-341 | the loop as written ends with the as-written truncation |
| ServingUtils.TruncateConversationAsWritten | app/model_serving_utils.py:308-341 | the loop as written, with its insert position, returns the as-written truncation |
| ServingUtils.TruncateConversation | app/model_serving_utils.py:308-341 | the corrected loop returns the corrected truncation |
| ServingUtils.TruncatedShape | app/model_serving_utils.py:325-341 | every system message is kept, first and in order, followed by the newest other messages in their order |
| ServingUtils.TruncatedFits | app/model_serving_utils.py:322-341 | the result fits the character budget whenever the system messages do |
| ServingUtils.TruncatedMaximal | app/model_serving_utils.py:332-339 | as many messages are kept as fit: the next older one would exceed the budget |
| ServingUtils.KeptFits | app/model_serving_utils.py:329-339 | the system messages plus the kept tail fit the budget, and adding the next older message would not |
| ServingUtils.TruncateAsWrittenReorders | app/model_serving_utils.py:336 | as written, [S, a, b] with room for all becomes [b, a, S]; the corrected truncation returns it unchanged |
| ServingUtils.TruncateVersionsAgreeWithoutSystem | app/model_serving_utils.py:336 | without system messages the as-written and corrected truncations agree |
| ServingUtils.LlamaFamilyIsLlama | app/model_serving_utils.py:497 | the three Llama spellings reduce to containing "llama" |
| ServingUtils.GetOptimalParameters | app/model_serving_utils.py:464-509 | temperature 0.7, max_tokens 400 and top_p 0.9 always, every other key from the family's extras, and no other keys |
| ServingUtils.OptimalParametersByFamily | app/model_serving_utils.py:484-507 | penalties exactly for GPT names, top_k 40 exactly for Claude names that are not GPT, top_k 50 for Llama and Mixtral names, a repetition penalty only for Llama, and only the defaults otherwise |
| ServingUtils.FamilyExtrasKeys | app/model_serving_utils.py:484-507 | each family's extras contain exactly the keys its branch adds, in the branch order |
| ServingUtils.QueryWithRetry | app/model_serving_utils.py:345-384 | at most max_retries + 1 attempts; every attempt before the last raised; the first reply is returned, or after all attempts an error reply naming the last exception |
| ServingUtils.QueryEndpointWithRetry | app/model_serving_utils.py:345-384 | because query_endpoint never raises, the retry returns after the first attempt whenever max_retries is non-negative |
| SqlText.Esc | db.py:119-120 | a missing text escapes to the empty text, and every quote adds exactly one character |
| SqlText.EscReadsBack | db.py:119-120 | the escaped text between quotes reads back in SQL as exactly the original text, and the statement goes on right after the closing quote |
| SqlText.EscInjective | db.py:119-120 | different texts never give the same escaped literal |
| SqlText.EscWithoutQuotes | db.py:119-120 | text without quotes is left unchanged |
| SqlText.Fqn | db.py:18-19 | the qualified name is catalog, schema and name joined by two dots |
| SqlText.FqnParts | db.py:18-19 | when no part holds a dot, splitting the qualified name at its dots gives back catalog, schema and name |
| SqlText.MetaExpr | db.py:126-129 | the meta column is `map()` exactly when neither the email nor the SQL user is given, and otherwise a map of both escaped values |
| Titles.Normalised | conversations.py:9 | the normalised prompt is empty exactly when the prompt is blank, and otherwise starts with a non-space character |
| Titles.DefaultTitle | conversations.py:8-16 | a blank prompt gives "New Chat"; otherwise the first six words, followed by an ellipsis exactly when there are more than six |
| Titles.DefaultTitleOf | conversations.py:8-16 | a text prompt gets its default title, any other falsy value "New Chat", and a truthy non-text value raises |
| Titles.DefaultTitleEmpty | conversations.py:10-11 | the empty prompt is titled "New Chat" |
| Titles.DefaultTitleWords | conversations.py:12-16 | a non-blank prompt's title is its first six words joined by single spaces, their number is the smaller of six and the word count, and an ellipsis follows when words were dropped |
| Titles.SplitWordsJoin | conversations.py:13 | splitting words joined by single spaces gives the words back |
| Titles.ReplyText | conversations.py:21 | the answer's text is read only from a dictionary: its content when that is text, and empty when the content is falsy |
| Titles.CleanTitle | conversations.py:22-23 | the cleaned title is never longer than the answer and neither starts nor ends with a single quote |
| Titles.CleanTitlePlain | conversations.py:22-23 | an answer without surrounding whitespace or quotes is kept as it is |
| Titles.CleanTitleQuoted | conversations.py:23 | an answer in double quotes loses the quotes and nothing else |
| Titles.TitleRequestFor | conversations.py:19-20 | the request goes to the given endpoint with 16 tokens, and holds the instruction followed by at most the first four messages |
| Titles.AnswerTitle | conversations.py:20-27 | a failed call gives the empty title, and otherwise the cleaned text of the reply |
| Titles.AutoTitle | conversations.py:18-28 | the model's title when non-empty, cut to exactly its first 60 characters when longer; otherwise the fallback cut to 60 characters |
| Titles.ReplyOfContent | conversations.py:21 | a reply whose only field is its content reads as that content |
| Titles.AutoTitleOfReply | conversations.py:18-28 | when the model replies with a content, the title is the first 60 characters of the cleaned content, or of the fallback when cleaning leaves nothing |
| Titles.AutoTitleUnquotes | conversations.py:22-25 | a model answering with a quoted plain title of at most 60 characters names the conversation with the unquoted title |
| Titles.CleanTitleEmptyQuotes | conversations.py:23 | an answer that is only a pair of double quotes cleans to nothing |
| Titles.AutoTitleEmptyQuotes | conversations.py:24-28 | an answer of empty quotes leaves the fallback, cut to 60 characters |
| Titles.AutoTitleFailedCall | conversations.py:26-28 | a call that raises leaves the fallback, cut to 60 characters |
| ContextWindow.Window | services/model_service.py:58 | a non-positive limit keeps every message; otherwise the window is the trailing min(limit, count) messages |
| ContextWindow.BuildContext | app/app.py:306-309 | the whole conversation when the limit is non-positive or not exceeded, otherwise a suffix no longer than the limit |
| ContextWindow.BuildContextIsWindow | app/app.py:306-309 | the explicit length test agrees with the slice on every input |
| ContextWindow.WindowKeepsNewest | app.py:339 | the window of a non-empty conversation is non-empty and ends with its newest message, so the pending prompt is always sent |
| ContextWindow.WindowOfWindow | app.py:339 | a window of a window is the smaller window |
| ContextWindow.ShouldReplyIffOdd | app.py:328-332 | on an alternating conversation the reply trigger holds exactly when the number of messages is odd |
| ContextWindow.TurnCycle | app.py:328-332 | on an alternating conversation of even length the trigger is off, a prompt turns it on, and the reply turns it off while keeping the alternation |
| Uploads.VolumeRootPrefix | apps/streamlit_app/pipelines/upload_ingest.py:8-9 | the user's root is `/Volumes/` followed by catalog, schema, volume and user joined by slashes |
| Uploads.VolumeRootParts | pipelines/upload_ingest.py:22-23 | when no name holds a slash, splitting the root at its slashes gives back the four names after `Volumes` |
| Uploads.PathJoinShape | apps/streamlit_app/pipelines/upload_ingest.py:34-37 | `os.path.join` returns an absolute second part as it is, and otherwise a path starting with the first part and ending with the second, separated by one slash when needed |
| Uploads.LastIndexOf | apps/streamlit_app/pipelines/upload_ingest.py:42 | the position found holds the character and no later position does, or no position holds it |
| Uploads.SplitExt | apps/streamlit_app/pipelines/upload_ingest.py:42 | the stem and the extension concatenate to the file name |
| Uploads.ExtensionShape | apps/streamlit_app/pipelines/upload_ingest.py:42 | the extension is empty or a dot followed by neither dots nor slashes |
| Uploads.SplitExtOfName | apps/streamlit_app/pipelines/upload_ingest.py:42 | a plain name followed by one extension splits at that extension |
| Uploads.Extension | apps/streamlit_app/pipelines/upload_ingest.py:42 | the lower-cased extension has the length of the extension and keeps its shape |
| Uploads.Classify | apps/streamlit_app/pipelines/upload_ingest.py:46-99 | a file is delimited exactly for `.csv` and `.tsv`, tab-separated exactly for `.tsv`, and a workbook exactly for `.xlsx` and `.xls` |
| Uploads.PlainSourceType | apps/streamlit_app/pipelines/upload_ingest.py:93 | for any other file the source type is the extension without its leading dot, and holds no dot |
| Uploads.SafeUser | apps/streamlit_app/pipelines/upload_ingest.py:48 | the user part of a table name holds neither `@` nor `.` |
| Uploads.TableNameParts | apps/streamlit_app/pipelines/upload_ingest.py:48-56 | a table name holds no dot when the document id has none, so its three-part name splits back into catalog, schema and table |
| Uploads.SheetTableNameParts | apps/streamlit_app/pipelines/upload_ingest.py:72-80 | the same for a sheet's table when the sheet name has no dot |
| Uploads.DocValues | apps/streamlit_app/pipelines/upload_ingest.py:51-61 | a document row has one value per column of the `documents` table |
| Uploads.ValuesReadBack | apps/streamlit_app/pipelines/upload_ingest.py:19 | a quoted, comma-separated value list reads back in SQL as exactly the values, whatever quotes they hold |
| Uploads.RegisterStatementReadsBack | apps/streamlit_app/pipelines/upload_ingest.py:17-20 | the value list of the insert statement reads back as the document's values and ends the statement |
| Uploads.SchemaEntries | pipelines/upload_ingest.py:36-40 | the Spark schema lists one `name string` entry per column, in order |
| Uploads.TablesCreatedAppend | apps/streamlit_app/pipelines/upload_ingest.py:44-74 | the tables created by two effect lists are the first's followed by the second's |
| Uploads.RegisteredAppend | apps/streamlit_app/pipelines/upload_ingest.py:51-89 | the documents registered by two effect lists are the first's followed by the second's |
| Uploads.SheetTableNamesAt | apps/streamlit_app/pipelines/upload_ingest.py:66-74 | each sheet's table name is taken from that sheet, in sheet order |
| Uploads.QualifiedAt | apps/streamlit_app/pipelines/upload_ingest.py:56 | each qualified name is the three-part name of its table |
| Uploads.SheetsStepsShape | apps/streamlit_app/pipelines/upload_ingest.py:66-85 | the workbook branch creates the sheets' tables and registers the sheets' documents, in sheet order |
| Uploads.SheetDocsAt | apps/streamlit_app/pipelines/upload_ingest.py:75-85 | each sheet's document is built from that sheet |
| Uploads.UploadTablesAreCreated | apps/streamlit_app/pipelines/upload_ingest.py:44-101 | the tables `process_upload` returns are exactly the ones it creates, in order, and in a workbook each is registered under its three-part name |
| Uploads.DelimitedTables | apps/streamlit_app/pipelines/upload_ingest.py:46-50 | a delimited file creates exactly one table, its own |
| Uploads.SheetTablesRegistered | apps/streamlit_app/pipelines/upload_ingest.py:63-85 | one document per sheet, each naming its sheet's table under its three-part name |
| Uploads.PlainUploadRegistersOnly | apps/streamlit_app/pipelines/upload_ingest.py:87-99 | any other file creates no table and registers one document with an empty table, the saved path, and an undotted source type |
| Uploads.Lakehouse.constructor | apps/streamlit_app/pipelines/upload_ingest.py:31-101 | a fresh lakehouse has issued no effect |
| Uploads.Lakehouse.SaveFileToVolume | apps/streamlit_app/pipelines/upload_ingest.py:11-15 | the save is appended, or the write raises and nothing is appended |
| Uploads.Lakehouse.CreateCsvExternalTable | apps/streamlit_app/pipelines/upload_ingest.py:22-29 | the creation of the external table over the location is appended, or `sql_exec` raises and nothing is appended |
| Uploads.Lakehouse.RegisterDocument | apps/streamlit_app/pipelines/upload_ingest.py:17-20 | the registration of the document is appended, or `sql_exec` raises and nothing is appended |
| Uploads.Lakehouse.ProcessUpload | apps/streamlit_app/pipelines/upload_ingest.py:31-101 | a failed `get_current_user` raises before anything is issued; otherwise the effects are the save followed by the branch's steps, up to the first that raises; the result is that exception, or the document id, the saved path, zero rows and the created tables |
| Uploads.Lakehouse.UploadBranch | apps/streamlit_app/pipelines/upload_ingest.py:42-99 | the branch for the file's kind issues its steps up to the first that raises and returns that exception, or the tables it created |
| Uploads.Lakehouse.ExternalTable | apps/streamlit_app/pipelines/upload_ingest.py:46-61 | the delimited branch returns the file's table name and issues its table, then its document, stopping at the first that raises |
| Uploads.Lakehouse.ExtractSheets | apps/streamlit_app/pipelines/upload_ingest.py:63-85 | the loop issues each sheet's CSV, table and document, in sheet order, until one raises; a failing sheet ends the upload with its exception and later sheets issue nothing; on success it returns the sheets' table names |
| Uploads.Lakehouse.ExtractSheet | apps/streamlit_app/pipelines/upload_ingest.py:67-85 | one sheet issues its CSV, its table and its document, stopping at the first that raises, and returns the sheet's table name |
| Uploads.Lakehouse.ReadDelimited | pipelines/upload_ingest.py:57 | the read of the file with the separator is appended, or `read_csv` raises and nothing is appended |
| Uploads.Lakehouse.IngestToDelta | pipelines/upload_ingest.py:31-34 | the overwrite of the Delta table with the rows read is appended, or the Spark write raises and nothing is appended |
| Uploads.Lakehouse.AppendDocumentRow | pipelines/upload_ingest.py:36-40 | the document row is appended to the `documents` table, or the Spark write raises and nothing is appended |
| Uploads.Lakehouse.ProcessUploadToDelta | pipelines/upload_ingest.py:42-103 | the user is the query's answer or `unknown_user`; the effects are the save followed by the branch's steps, up to the first that raises; the result is that exception, or the document id, the saved path and the rows ingested |
| Uploads.Lakehouse.DeltaBranch | pipelines/upload_ingest.py:53-101 | the branch for the file's kind issues its steps up to the first that raises and returns that exception, or the rows it ingested |
| Uploads.Lakehouse.IngestDelimited | pipelines/upload_ingest.py:55-71 | the delimited branch issues the read, the overwrite and the document, stopping at the first that raises, and on success returns the rows read |
| Uploads.Lakehouse.IngestSheets | pipelines/upload_ingest.py:72-89 | the loop issues each sheet's table and document, in sheet order, until one raises; a failing sheet ends the upload with its exception; on success it returns the sum of the sheets' rows |
| Uploads.Lakehouse.IngestSheet | pipelines/upload_ingest.py:75-89 | one sheet issues its table, then its document, stopping at the first that raises |
| Uploads.UserId | pipelines/upload_ingest.py:14-20 | a failed `current_user()` query gives `unknown_user` |
| Uploads.DeltaSheetStepShape | pipelines/upload_ingest.py:76-89 | one sheet creates its own table and registers its own document |
| Uploads.RecordedRowsAppend | pipelines/upload_ingest.py:69-87 | recorded row counts add up over concatenation |
| Uploads.DeltaSheetsRecorded | pipelines/upload_ingest.py:72-89 | the sheets' documents record row counts that sum to the rows of the workbook |
| Uploads.DeltaSheetsTables | pipelines/upload_ingest.py:74-77 | one Delta table per sheet, named after the sheet, in sheet order |
| Uploads.DeltaRowsRecorded | pipelines/upload_ingest.py:54-103 | the total returned is the sum of the row counts the registered documents record |
| Uploads.ZeroRecorded | pipelines/upload_ingest.py:90-101 | a document recording "0" adds nothing to the total |
| Uploads.DelimitedRecorded | pipelines/upload_ingest.py:55-71 | a delimited file's document records exactly the rows read |
| Uploads.OneRecorded | pipelines/upload_ingest.py:69 | a single document records the number its `num_rows` text reads as |
| Uploads.DelimitedSeparator | pipelines/upload_ingest.py:55-57 | a `.tsv` file is read with a tab and a `.csv` file with a comma |
| Uploads.Completed | apps/streamlit_app/pipelines/upload_ingest.py:31-101 | the effects a run issues are a prefix of its steps, all of which succeed, and it stops short only at a step that raises |
| Uploads.FirstFailureStops | apps/streamlit_app/pipelines/upload_ingest.py:31-101 | a run ends with an exception exactly when it stops short, and the exception is that of the step it stopped at |
| Uploads.CompletedAppend | apps/streamlit_app/pipelines/upload_ingest.py:31-101 | running two step lists in sequence is running the first, then the second only when the first raised nothing |
| Uploads.CompletedCreatesPrefix | apps/streamlit_app/pipelines/upload_ingest.py:31-101 | a run that stops creates the first of the tables, and registers the first of the documents, that a full run would |
| Uploads.SheetsRunStep | apps/streamlit_app/pipelines/upload_ingest.py:66-85 | a raising sheet ends the workbook run there with its exception, and later sheets issue nothing |
| Uploads.UploadRunTablesFirst | apps/streamlit_app/pipelines/upload_ingest.py:46-85 | wherever an upload of a delimited file or a workbook stops, it has registered no more documents than it has created tables |
| Uploads.DeltaSheetsRunStep | pipelines/upload_ingest.py:74-89 | a raising sheet ends the root pipeline's workbook run there with its exception |
| Uploads.DeltaRunTablesFirst | pipelines/upload_ingest.py:55-89 | wherever a root-pipeline upload of a delimited file or a workbook stops, it has appended no more documents than it has written tables |
| HistoryPage.ConfirmKey | ui/pages/history_page.py:144 | the flag's key is the prefix followed by the conversation id, which can be read back from it |
| HistoryPage.ConfirmKeyInjective | ui/pages/history_page.py:144 | different conversations have different flags |
| HistoryPage.Press | ui/pages/history_page.py:142-160 | an unarmed flag is set and nothing is deleted; an armed one runs the deletion, reports its outcome and removes the flag whether it succeeded or failed; no other session key changes |
| HistoryPage.PressKeepsOtherFlags | ui/pages/history_page.py:142-160 | a click on one conversation leaves every other conversation's flag as it was |
| HistoryPage.TwoClicksDelete | ui/pages/history_page.py:146-156 | two clicks on an unarmed conversation delete it, and the session ends as it started |
| HistoryPage.FailureStartsOver | ui/pages/history_page.py:158-160 | after a failed deletion the next click only asks for confirmation again |
| HistoryPage.History.constructor | ui/pages/history_page.py:142 | the page starts from the given session with nothing deleted |
| HistoryPage.History.DeleteConversation | ui/pages/history_page.py:142-160 | the new session and the click's result are those of one press, and the conversation is added to the deleted ones exactly when it was removed |

## Left out

- Streamlit rendering, layout, widgets and `st.rerun` control flow: presentation with no behaviour to state. This covers `ui.py`, the `ui/` package except the delete flow, and the widget code of every script.
- HTTP calls, the Databricks SDK, the SQL connector, Spark, pandas and the file system: each is an oracle parameter or an entry in an effect log. Their internals are not modelled.
- The SQL engine's evaluation of statements: the warehouse is an abstract store of three tables, and only the reading back of quoted literals and value lists is modelled.
- Floating-point arithmetic: temperatures are carried as their printed text. The usage row's cost column and the two price settings it is computed from (`PRICE_PROMPT_PER_1K` and `PRICE_COMPLETION_PER_1K`, db.py:157-163) are left out: they are float arithmetic.
- ServingUtils.TruncateConversation: takes the character budget `max_chars` directly, because `int(max_tokens * chars_per_token)` is a floating-point product.
- UUIDs and timestamps: fresh ids and times are parameters.
- Unicode: whitespace (space, `\t\n\v\f\r` and `\x1c`-`\x1f`), `lower()` and `upper()` are modelled for ASCII only, and text is a sequence of characters with no encoding.
- Python `str()` of nested values: strings inside containers are shown without escaping.
- Python dictionary key equality: it is approximated by equality of the modelled values.
- `analytics_utils.py`, `services/file_parser_service.py` and `services/token_truncation.py`: DataFrame transforms, document parsing and a tokenizer are not part of this model.
- Further serving utilities are not modelled: `list_available_endpoints`, `query_endpoint_streaming` (which calls `_prepare_payload` without its required arguments), `query_multiple_endpoints`, `estimate_cost`, `health_check_all_endpoints`, `get_endpoint_metrics`, `validate_endpoint_config`, the per-family `query_*_endpoint` wrappers and the `get_client` singleton. They are network calls or float arithmetic.
- `export_conversation_json` and `export_conversation_for_training`: these are `json.dumps`, and the second refers to an undefined `pd`.
- `fetch_conversation_meta` (db.py:218-225): a single-row read with no logic beyond the query itself.
- `sql_exec` in `db.py` and the classic script's own `sql_exec` (`app/app.py`) both swallow every exception, so in the model a logging write always takes effect when logging is on, and `ClassicApp.LogIfReachable` relies on that. A failed write is not modelled there. The lakehouse app's `sql_exec` does raise: `LakehouseApp.ChatTurn` takes the outcome of each INSERT as a parameter, and the upload pipelines take the outcome of each step.
- `list_conversations`: only its WHERE clause builder is modelled, not the rest of the SELECT text or its ordering.
- The lakehouse app's `list_conversations` and the SQL text of `save_conversation` are not modelled, apart from the inserted row. How the warehouse reads the `$$` literal is also left out: the model states that the escaped text cannot contain `$$`.
- Configuration files: the YAML branch of `get_cfg` and the file reading of `load_theme` are left out. The environment fallback and the default theme are modelled.
- The history page lists conversations from an oracle, and only `_delete_conversation` is modelled.
- The root pipeline's `pd.read_csv` and `xls.parse` are oracles that give a row count for each file and each sheet. Sheet contents are not modelled.
- Uploads.Lakehouse.ProcessUpload: a workbook that `pd.ExcelFile` cannot open is not modelled, because the sheet names are given as a parameter. The same holds for Uploads.Lakehouse.ProcessUploadToDelta. A failing `xls.parse` counts as a failure of the step that follows it: the sheet's CSV write or its Delta write.
- Uploads.Lakehouse.ProcessUpload: a step that raises leaves no effect, and the outcome of each step is a function of the step, so two identical steps in one upload raise alike.
- ChatApp.ChatSession.LoadConversation: a stored title that is SQL `NULL` counts as absent and becomes "Chat", where `r.get("title", "Chat")` gives `None`; stored rows carry no `NULL` distinct from a missing column.
- ClassicApp.HeaderOf: request headers are looked up by exact name, while Streamlit's `st.context.headers` matches names case-insensitively.
- Rag.ColumnName: a column description whose `name` is not a string is an error, where Python would use the value itself as a dictionary key; column names are modelled as text only.
- Catalog entries in `allowed_models` are assumed to be dictionaries, as the catalog file provides them.
- `generate_title`'s `"..."` fallback in the exception handler is modelled as written. For a non-empty list it is reached only when the first message's content is a truthy non-string, and in that case its own `split()` raises as well.

## Findings

| source | as written | input that shows it | evidently intended | confidence | as-written member | corrected member |
|---|---|---|---|---|---|---|
| app/model_serving_utils.py:336 | `result.insert(-len(system_msgs), msg)` puts each kept message in front of the system block, so the kept messages come out newest first and before the system messages | `[system "S", user "a", assistant "b"]` with room for all three returns `[b, a, S]`; see `ServingUtils.TruncateAsWrittenReorders` | the system messages first, then the most recent messages that fit, in their original order | not executed | ServingUtils.TruncateConversationAsWritten | ServingUtils.TruncateConversation |
| app/model_serving_utils.py:96-122 | the membership tests for `"choices"` and `"response"` run before the `isinstance(result, str)` test, so a plain-text reply that contains either word is indexed with a string and raises | the plain-text body `"my response"` becomes an "Unexpected error" reply; see `ServingUtils.PlainTextMentioningResponseFails` and `ServingUtils.QueryEndpointMentioningResponse` | every plain-text body is the assistant's text | not executed | ServingUtils.ParseResponse | ServingUtils.ParseResponseFixed |
| app/model_serving_utils.py:170-186 | `test_endpoint` only checks that the reply has non-empty content, but `query_endpoint` has already turned every failure into an assistant message with non-empty error text | any endpoint whose request fails, for example with a refused connection, passes; see `ServingUtils.UnreachableEndpointPasses` | `False` for an endpoint that cannot be reached or gives no readable reply | not executed | ServingUtils.TestEndpointAsWritten | ServingUtils.TestEndpointFixed |
