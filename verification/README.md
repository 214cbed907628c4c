# wp-bot conversation and polling model

A Dafny model of the core of `wp_bot/bot.py`, a Telegram bot that publishes
homily recordings to a WordPress site. The bot keeps one JSON context per
Telegram user and walks each user through a small cycle:

1. `/login <apikey>:<secret>` (any message with a `bot_command` entity) stores the credentials;
2. an audio document is downloaded to `media/` and the bot asks for the recording date;
3. the next plain message is taken as the date, the file is uploaded as WordPress
   media, a post is created from the media's rendered description, and the bot
   replies with the post link.

Around it, `bot` long-polls `getUpdates` with a moving `update_id` offset.

## Structure

- `wrappers.dfy` — `Option`, for the JSON keys that may be absent.
- `text.dfy` (module `Text`) — the Python string operations the bot relies on, with
  Python's semantics: `s[k:]` past the end (`Drop`), `str.strip()` (`Strip`, with
  `TrimLeft`/`TrimRight`, whitespace as `str.isspace` defines it) and `str.split(sep)` (`Split`).
- `services.dfy` (module `Services`) — the Telegram Bot API and WordPress REST API payload fields the bot reads (`Update`,
  `Message`, `Entity`, `Document`, the `getFile` result) and every remote call as an
  `Action` value: `GetUpdates`, `SendMessage`, `GetFile`, `Download`, `UploadMedia`, `CreatePost`.
- `conversation.dfy` (module `Conversation`) — `callback`. The per-user context is a
  record of four optional keys. `Dispatch` picks the branch (command, no credentials,
  document, waiting for the date, nothing), first match wins. `Decide` gives the
  branch's *plan*: the remote calls it makes, in order, and whether it then commits a
  new context or raises locally (a missing key, credentials that do not split in two).
  `Run` executes a plan against `Remote.failing`, the index of the first remote call
  that raises. The context is saved only when nothing raised (the save is the last
  statement of `callback`). `StoreStep` is the same on the store of all users. The
  class `ContextStore` holds the contexts as a `map<int, Context>`. Its `Callback` method
  changes a local copy of the context branch by branch (`Step`, `DocumentStep`,
  `PublishStep`) and writes it back only at the end. Each method is proved equal to
  the functions above.
- `polling.dfy` (module `Polling`) — one iteration of `bot`. `NextCursor` is
  `max(update_id)+1` for a non-empty batch. `RunBatch` (the fold `InOrder` of `StoreStep`) passes the updates to
  `StoreStep` in order and stops at the first one that raises. `Iteration` is the
  whole turn. The class `Poller` holds the offset and the store; its `Iterate` and
  `ProcessBatch` methods are proved equal to `Iteration` and `RunBatch`.

Remote answers are parameters (`Remote` for one step, `Fetch` for `getUpdates`).
These include the `getFile` result, the media's `description.rendered`, the post's
`link`, and which call fails. A failure anywhere means the step ends without a save.

## Behaviour of the code worth knowing

- An answer with `ok: false` still moves the offset past any updates it carries,
  because the offset is assigned before `ok` is looked at (`wp_bot/bot.py:120-125`).
- Only a socket timeout of `getUpdates` is caught. Any other exception ends the loop,
  including one raised inside `callback` for any update. The model reports this as `stopped`.
- Any `bot_command` entity, not only `/login`, is treated as a login (`wp_bot/bot.py:58`).
- The replies and the post title are the literal strings of `wp_bot/bot.py`; the title
  is `Vangelo e Omelia <date>`.
- A document without `file_name` is saved as `media/<file_unique_id>__None.mp3`,
  because Python formats the absent value as `None`.

## Model

| member | source | states |
|---|---|---|
| Text.Drop | wp_bot/bot.py:60 | `text[k:]` has `len - k` characters, or none when `k` is past the end; character `i` of it is character `k + i` of the text |
| Text.TrimLeft | wp_bot/bot.py:60 | the result is a suffix of the input; everything removed is whitespace; the result does not start with whitespace |
| Text.TrimRight | wp_bot/bot.py:60 | the result is a prefix of the input; everything removed is whitespace; the result does not end with whitespace |
| Text.Strip | wp_bot/bot.py:60 | the stripped string is no longer than the input and neither starts nor ends with whitespace |
| Text.StripRemovesSpace | wp_bot/bot.py:60 | the stripped string is a contiguous part of the input, and only whitespace lies before and after it |
| Text.StripUnique | wp_bot/bot.py:60 | for any trimmed `r` with whitespace around it, stripping gives back exactly `r` (the reference definition of strip) |
| Text.StripIdempotent | wp_bot/bot.py:60 | stripping twice equals stripping once |
| Text.IndexOf | wp_bot/bot.py:84 | the first position of the separator: it holds the separator and nothing before it does |
| Text.Split | wp_bot/bot.py:84 | split yields one part more than there are separators, no part contains the separator, and joining the parts with it gives back the input |
| Text.SplitPair | wp_bot/bot.py:84 | `k:v` with no `:` in `k` or `v` splits into exactly `[k, v]` |
| Services.FirstCommand | wp_bot/bot.py:58 | absent exactly when no entity has type `bot_command`; otherwise the earliest such entity |
| Conversation.CommandArgument | wp_bot/bot.py:60 | the stored credentials neither start nor end with whitespace |
| Conversation.CredentialsPairSpec | wp_bot/bot.py:84 | credentials unpack into `(apikey, secret)` exactly when they are `apikey:secret` with no other `:` (both directions) |
| Conversation.MediaPath | wp_bot/bot.py:71 | the local file lies under `media/` and ends in `.mp3` |
| Conversation.Run | wp_bot/bot.py:107-109 | the attempted calls are a prefix of the branch's calls, ending at the failing call; when no call fails every planned call is made; a context is saved exactly when the branch commits and no call failed |
| Conversation.Lookup | wp_bot/bot.py:49-54 | definition, no ensures: the stored context of the user, or the empty context when the user has none |
| Conversation.CredentialsPair | wp_bot/bot.py:84 | definition, no ensures: the two parts of `split(":")`, or none when there are not exactly two (where the unpacking raises); its meaning is proved in `CredentialsPairSpec` |
| Conversation.Title | wp_bot/bot.py:88 | definition, no ensures: `Vangelo e Omelia ` followed by the date text |
| Conversation.Merge | wp_bot/bot.py:68 | definition, no ensures: the keys returned by `getFile` replace the document's own, the others are kept |
| Conversation.Resolve | wp_bot/bot.py:65-70 | definition, no ensures: a document with a non-empty path is used as is; otherwise the `getFile` answer is merged into it |
| Conversation.Dispatch | wp_bot/bot.py:58-83 | definition, no ensures: the first branch whose condition holds, in the order command, no credentials, document, waiting for the date, nothing |
| Conversation.CommandPlan | wp_bot/bot.py:59-61 | definition, no ensures: without text the step raises before any call; otherwise one acknowledgement and the context with the stripped argument as credentials; its effect is proved in `CommandSetsCredentials` |
| Conversation.DocumentPlan | wp_bot/bot.py:64-81 | definition, no ensures: `getFile` only when the document has no path, then the download and the reply, committing the media path and status 2; no remote path raises; its properties are proved in `DocumentSetsPending` and `GetFileOnlyWhenNeeded` |
| Conversation.PublishPlan | wp_bot/bot.py:83-105 | definition, no ensures: credentials that do not split in two or a missing text raise before any call; then announce, upload, create post, reply with the link, each missing answer raising after the call that should have given it; its properties are proved in `PublishSequence`, `PublishSavesOnlyOnSuccess` and `AtMostOnePublish` |
| Conversation.Decide | wp_bot/bot.py:56-105 | definition, no ensures: the plan of the branch `Dispatch` picks; the prompt branch commits the loaded context, the idle branch makes no call |
| Conversation.Transition | wp_bot/bot.py:56-109 | definition, no ensures: the branch's plan run against the failing call; its properties are those of `Run` and the lemmas about each branch |
| Polling.InOrder | wp_bot/bot.py:125-127 | definition, no ensures: the batch through a step function in order, stopping at the first update that raises; `StoppedStays` is proved about it |
| Polling.RunBatch | wp_bot/bot.py:125-127 | definition, no ensures: `InOrder` with `callback`'s step `StoreStep` |
| Polling.Iteration | wp_bot/bot.py:114-129 | definition, no ensures: a timeout retries unchanged, another failure stops, an answer moves the offset by `NextCursor` and only an ok answer runs its batch; its properties are proved in `NotOkStillAdvances`, `TimeoutRetries` and `IterationPreservesWellFormed` |
| Conversation.StoreStep | wp_bot/bot.py:44-109 | a step that raises leaves every stored context as it was; a step that saves changes only the sender's entry |
| Conversation.ContextStore.constructor | wp_bot/bot.py:49-54 | no user has a context yet |
| Conversation.ContextStore.Callback | wp_bot/bot.py:44-109 | the calls made and the new store are those of `StoreStep` |
| Conversation.Step | wp_bot/bot.py:56-105 | the calls made and the outcome of the in-place updates are those of `Transition` |
| Conversation.DocumentStep | wp_bot/bot.py:64-81 | the document branch, run step by step, makes the calls of `DocumentPlan` and saves what it commits |
| Conversation.PublishStep | wp_bot/bot.py:83-105 | the publish branch, run step by step, makes the calls of `PublishPlan` and saves what it commits |
| Conversation.NoCredentialsOnlyPrompt | wp_bot/bot.py:62-63 | without credentials and command, the only call is the `/login` prompt and the saved context is the loaded one |
| Conversation.NewUserPrompted | wp_bot/bot.py:49-63 | a user with no stored context starts from the empty one; without a command they get only the prompt, and their context stays empty |
| Conversation.CommandSetsCredentials | wp_bot/bot.py:58-61 | whatever the prior context, a command sets `credentials` to the stripped text after the first command entity and keeps every other key; the only call is the acknowledgement; no text means it raises with no call |
| Conversation.CommandIdempotent | wp_bot/bot.py:58-61 | replaying a saved command message on its own result yields the same calls and the same context |
| Conversation.DocumentSetsPending | wp_bot/bot.py:64-81 | with credentials and no command, a document sets `file_path` to its media path and `status` to 2, even over a pending date and an old file; it saves exactly when a remote path is known and no call fails; the calls are `getFile` when the document has no path, the download from the resolved remote path to that media path, and the question about the recording date, in that order, cut short at a failing call and all made when it saves |
| Conversation.GetFileOnlyWhenNeeded | wp_bot/bot.py:65-74 | `getFile` is the first call exactly when the document has no path; otherwise the first call downloads from the document's own path; `getFile` is never called later in the step |
| Conversation.PublishSequence | wp_bot/bot.py:83-105 | waiting for the date with everything available, the calls are: announce, one upload titled `Vangelo e Omelia <text>`, one `publish` post in category `16` with the media description, reply with the link; the saved context keeps the credentials, has status 1 and no file path or date |
| Conversation.PublishSavesOnlyOnSuccess | wp_bot/bot.py:83-109 | waiting for the date, the store changes exactly when the credentials split in two, text, pending file, description and link are present and none of the four calls fails; otherwise the store is left as it was |
| Conversation.BadCredentialsNoCall | wp_bot/bot.py:84 | credentials that do not split in two raise before any remote call |
| Conversation.IdleNoCall | wp_bot/bot.py:58-109 | with credentials, no command, no document and no pending date, no call is made and the loaded context is saved back unchanged |
| Conversation.AtMostOnePublish | wp_bot/bot.py:87-102 | no step uploads twice or creates two posts; a post is created only after the media was uploaded under the same title |
| Conversation.StepPreservesWellFormed | wp_bot/bot.py:56-105 | a saved context never has a date, and it has a file path exactly when its status is 2, provided the loaded context had these properties |
| Conversation.PendingFileAvailable | wp_bot/bot.py:83-92 | in such a context, the publish branch always finds the credentials and the pending file |
| Conversation.StoreStepPreservesWellFormed | wp_bot/bot.py:107-109 | a step keeps every stored context well formed |
| Polling.MaxUpdateId | wp_bot/bot.py:123 | the result is at least every update id of the batch and equals one of them |
| Polling.NextCursor | wp_bot/bot.py:121-123 | an empty batch keeps the offset; otherwise the offset is above every id and exactly one past the highest |
| Polling.CursorExample | wp_bot/bot.py:121-123 | ids 5, 7, 9 give offset 10 |
| Polling.Poller.constructor | wp_bot/bot.py:113 | the offset starts unset |
| Polling.Poller.Iterate | wp_bot/bot.py:114-132 | one iteration requests updates with the current offset; the new offset, the calls, the store and whether the loop ends are those of `Iteration` |
| Polling.Poller.ProcessBatch | wp_bot/bot.py:125-127 | the updates go through `callback` in batch order until one raises; calls and store are those of `RunBatch` |
| Polling.StoppedStays | wp_bot/bot.py:126-127 | once an update of the batch has raised, the updates after it change neither the calls nor the store |
| Polling.NotOkStillAdvances | wp_bot/bot.py:120-129 | an answer that is not ok processes nothing and keeps the loop going, yet still moves the offset past every id of its batch |
| Polling.TimeoutRetries | wp_bot/bot.py:115-118 | a timeout changes neither the offset nor the store |
| Polling.BatchTouchesOnlySenders | wp_bot/bot.py:126-127 | a user who sent none of the batch's messages keeps their context, and gains no context either |
| Polling.BatchPreservesWellFormed | wp_bot/bot.py:126-127 | processing a batch keeps every stored context well formed |
| Polling.IterationPreservesWellFormed | wp_bot/bot.py:114-129 | a whole iteration keeps every stored context well formed |

## Left out

- `invoke` and every `urlopen` (HTTP to Telegram, the file download) are left out. Each call is an `Action`, and its answer or failure is a parameter.
- Logging (`logger.info`, `logger.error`, the `__main__` configuration) is left out. It has no effect on state.
- The JSON files of the contexts are a `map<int, Context>` in memory. Load and save are assumed to succeed, and JSON decoding is not modelled.
- The media file write is part of the `Download` action. Its failure is the failure of that call.
- The `get_wordpress_client` library (`rest_tools.wordpress`) is not part of this model. Its two calls are `UploadMedia` and `CreatePost`, with supplied results. Opening the local file for upload is part of `UploadMedia`. The fixed site URL is not kept in the actions.
- The `while True` loop, `time.sleep(0.5)` and the timeout handling are left out. The model has one iteration (`Iterate`), and a timeout is an input (`Fetch.TimedOut`).
- The `TELEGRAM_BOT_TOKEN` environment read is left out: it is configuration.
- The unused status `ASKED_SECRET` is left out.
- Path normalisation by `pathlib` is left out. It matters only for file names containing `/` or `.` components.
- Entity offsets index the text by Python characters. Telegram counts UTF-16 code units, and the model follows the code.
- A document is treated as always truthy, because Telegram always sends `file_id` and `file_unique_id`.
- Messages without `from` or `chat`, JSON values of unexpected types and non-integer statuses are not modelled. `Message` always carries a sender id and a chat id.
- Conversation.CommandArgument: its own contract only says the credentials are trimmed. The exact value is stated in `CommandSetsCredentials`, and `StripRemovesSpace` and `StripUnique` characterise it.
- Conversation.MediaPath: its own contract states only the directory and the extension. The exact name is stated in `DocumentSetsPending` through the function itself.
