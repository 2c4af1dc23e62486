# Shopping-list Telegram bot: command handler and user-id cache, in Dafny

This project models two small, sequential parts of a Telegram shopping-list bot.

- **`TelegramBotCommandHandler`** (src/bot/handler.js) handles text commands. Its own state is
  `userState`, a map from user id to a mode record `{mode}`. The add-items command sets
  `{mode: "ADDING_ITEMS"}` for the sender. In that mode, free text that is present, non-empty and
  not a `/` command is stored as an item. Cancel deletes a map entry. View-list renders the user's
  items as numbered lines, each with a glyph for bought or not yet bought. Dispatch on the message
  text is by strict equality with three menu labels, checked in order. Every other text goes to the
  free-text handler.
- **`UserCacheService.getUserId`** (src/services/userCache.service.js) is a cache-aside resolver.
  It builds the key `"user:" + telegramId` and reads the cache. On a hit it returns the stored text
  read as a number. On a miss it calls `getOrCreateUser`, stores `String(userId)` for 3600 seconds,
  and returns the id.

Collaborators are modelled as plain state:

- the user service is a `Users.Directory`, a create-or-fetch map from Telegram ids to internal ids;
- the item store is a sequence of items per internal user id;
- the memcached client is a `map<string, string>`;
- the bot transport is an append-only outbox of `sendMessage` calls.

Call logs (`resolverCalls`, `cacheWrites`) record how often, and with what, the collaborators are
called.

Each module pairs pure functions with a class:

- the pure functions (`CommandHandler.TextTypingCommand`, `UserCache.Lookup`, …) say what one
  handler call does to the whole state;
- the classes `CommandHandler.TelegramBotCommandHandler` and `UserCache.UserCacheService` hold the
  same state in mutable fields;
- each class method does its work step by step and is proved equal to its function;
- the properties the source promises are lemmas about the functions.

The central cache lemma is `Decimal.ParseShow`: `Number(String(n)) == n`. From it,
`UserCache.SecondLookupHits` proves that a second lookup returns the first one's id without calling
the resolver. `UserCache.LookupCoherent` proves the cache invisible while it agrees with the
directory.

Where the code behaves in a surprising way, the model follows the code:

- The cache service has no error handling: a failing cache call fails the lookup. Failure tolerance
  is not modelled.
- The handler has no try/catch and no generic error message.
- The delete-items and mark-items-bought labels are not dispatched by src/bot/handler.js. They reach
  the free-text handler (`CommandHandler.OtherLabelsAreFreeText`). In adding mode, a label that is
  non-empty and not a `/` command is stored, trimmed, as an item. The test file expects dedicated handlers that the code does not define.
- The mode is set under the Telegram id (src/bot/handler.js:84) but deleted under the resolved
  internal id (src/bot/handler.js:117-118). `CommandHandler.AddThenCancelExitsIffIdsAgree` proves
  that cancel ends adding mode exactly when the two ids are equal.
  `CommandHandler.TextAfterCancelStillAdded` proves that, when they differ, text typed after cancel
  is still stored.
- Text of white space only passes the `!text` guard, so `addItem` is called with an empty name
  (`CommandHandler.BlankTextAddsEmptyName`).

## Model

| member | source | states |
|---|---|---|
| `Decimal.Show` | src/services/userCache.service.js:22 | `String(n)` of a natural is a non-empty digit string with no leading zero except for 0, one digit exactly when n < 10 |
| `Decimal.Parse` | src/services/userCache.service.js:15 | `Number(text)` of a digit text is 0 exactly when every digit is 0 |
| `Decimal.ParseLeadingZero` | src/services/userCache.service.js:15 | a leading zero does not change the value: `Number("0" + s) == Number(s)` |
| `Decimal.ParseShow` | src/services/userCache.service.js:15 | `Number(String(n)) == n` for every natural n |
| `Decimal.ShowParse` | src/services/userCache.service.js:15 | a canonical digit string is the rendering of the number it parses to |
| `Decimal.ParsePositive` | src/services/userCache.service.js:15 | a digit string not starting with 0 parses to at least 1 |
| `Text.LeadingSpaceEnd` | src/bot/handler.js:102 | the position where the run of white space starting at i ends: only white space before it, and a non-space character at it unless it is the end |
| `Text.TrailingSpaceStart` | src/bot/handler.js:102 | the position where the run of white space ending at j starts, not below lo: only white space after it, and a non-space character just before it unless it is lo |
| `Text.Trim` | src/bot/handler.js:102 | `text.trim()` is the piece of the text that starts after its leading white space, with only white space before and after it and none at either of its own ends |
| `Text.TrimAllSpace` | src/bot/handler.js:102 | text of white space only trims to the empty text |
| `Text.StartsWith` | src/bot/handler.js:99 | `text.startsWith(p)`: p is a prefix of the text |
| `Text.Join` | src/bot/handler.js:72 | `lines.join("\n")`: the lines separated by line breaks, empty for no lines; `Text.SplitJoin` proves that `Text.Split` undoes it |
| `Text.LineEnd` | src/bot/handler.js:72 | the position returned is the first line break, or the end of the text |
| `Text.Split` | src/bot/handler.js:72 | a text splits into at least one piece, and no piece holds a line break |
| `Text.SplitCons` | src/bot/handler.js:72 | splitting `head + "\n" + rest` gives head followed by the lines of rest |
| `Text.SplitJoin` | src/bot/handler.js:70-72 | splitting `lines.join("\n")` on line breaks gives back the lines, when none holds a break |
| `Users.GetOrCreate` | src/services/userCache.service.js:18 | `getOrCreateUser` returns the known id unchanged, or records a fresh id unused by any other user; validity and injectivity are kept |
| `Users.GetOrCreateIdempotent` | src/services/userCache.service.js:18 | resolving the same Telegram id again returns the same id and creates nothing |
| `Users.GetOrCreateKeepsOthers` | src/services/userCache.service.js:18 | resolving one user never changes another user's id |
| `UserCache.CacheKey` | src/services/userCache.service.js:11 | the key `"user:" + String(telegramId)`; `UserCache.CacheKeyDecodes` and `UserCache.CacheKeyInjective` state that it decodes back to the id and is injective |
| `UserCache.CacheKeyDecodes` | src/services/userCache.service.js:11 | the key is `"user:"` followed by decimal text that reads back as the Telegram id |
| `UserCache.CacheKeyInjective` | src/services/userCache.service.js:11 | distinct Telegram ids have distinct cache keys |
| `UserCache.Lookup` | src/services/userCache.service.js:10-27 | `getUserId` keeps every cached value a decimal digit string |
| `UserCache.LookupHit` | src/services/userCache.service.js:13-16 | on a hit the result is the stored text read as a number; nothing is called and nothing is written |
| `UserCache.LookupMiss` | src/services/userCache.service.js:18-26 | on a miss the resolver is called once with the Telegram id; its answer is returned; the one write is `(key, String(id), 3600)`; all other keys are unchanged |
| `UserCache.LookupTrustsCache` | src/services/userCache.service.js:14-16 | on a hit the answer does not depend on the directory at all |
| `UserCache.SecondLookupHits` | src/services/userCache.service.js:13-26 | a second lookup of the same id returns the same id and changes nothing |
| `UserCache.TwoLookupsFromEmptyCache` | src/services/userCache.service.js:13-26 | from an empty cache, two lookups return the resolver's id, with one resolver call and one cache write |
| `UserCache.LookupCoherent` | src/services/userCache.service.js:10-27 | while every cached id matches the directory, lookups answer as the directory does, and the match is kept |
| `UserCache.UserCacheService.constructor` | src/services/userCache.service.js:5-8 | the service starts with the given cache and user service and empty call logs |
| `UserCache.UserCacheService.CacheGet` | src/services/userCache.service.js:13 | `cache.get` returns a value exactly when the key is stored, and that value is the stored one |
| `UserCache.UserCacheService.CacheSet` | src/services/userCache.service.js:20-24 | `cache.set` stores the value under the key, logs the write, and changes nothing else |
| `UserCache.UserCacheService.GetOrCreateUser` | src/services/userCache.service.js:18 | the resolver call updates the directory as `GetOrCreate` does and is logged |
| `UserCache.UserCacheService.GetUserId` | src/services/userCache.service.js:10-27 | the method performs `Lookup`: on a hit it returns the parsed text and changes nothing; on a miss it returns the resolver's id, logs one resolver call and writes exactly one entry |
| `ListView.Line` | src/bot/handler.js:71 | line k of the list: `${k}. ${glyph} ${name}`, read back by `ListView.LineDecodes` |
| `ListView.Lines` | src/bot/handler.js:70-71 | one line per item in store order, line k+1 for the k-th item |
| `ListView.ViewText` | src/bot/handler.js:66-77 | the reply text is the empty-list notice exactly when there are no items; otherwise it starts with the title and an empty line |
| `ListView.LineDecodes` | src/bot/handler.js:71 | line k reads back as the number k, then `". "`, the bought glyph exactly when the item is bought, a space, and the name |
| `ListView.LineHasNoBreak` | src/bot/handler.js:71 | a line holds no line break when the item's name holds none |
| `ListView.SplitTitled` | src/bot/handler.js:74 | the lines of `title + "\n\n" + body` are the title, an empty line and the lines of body |
| `ListView.LinesHaveNoBreak` | src/bot/handler.js:70-71 | no rendered line holds a line break when no item name does |
| `ListView.ViewTextLines` | src/bot/handler.js:66-77 | the list reply splits into the title, an empty line, then one line per item in store order, line k+1 for the k-th item |
| `CommandHandler.AddItem` | src/bot/handler.js:102 | `addItem` appends one unbought item with the given name to that user's list, and no other list changes |
| `CommandHandler.Resolve` | src/bot/handler.js:101 | resolving the sender updates the directory as `getOrCreateUser` does, logs the call, and changes nothing else |
| `CommandHandler.ItemsOf` | src/bot/handler.js:64 | `getItems(userId)`: the user's items in store order, none for a user with no items |
| `CommandHandler.InAddingMode` | src/bot/handler.js:94-98 | the sender's `userState` entry exists and its mode is `"ADDING_ITEMS"` |
| `CommandHandler.AcceptsItemText` | src/bot/handler.js:99 | the text is present, non-empty and does not start with `/` |
| `CommandHandler.Route` | src/bot/handler.js:42-57 | view-list text selects view-list; add-items text not equal to it selects add-items; the cancel label selects cancel if neither earlier label matched; everything else, a missing text included, is free text |
| `CommandHandler.RouteDistinctLabels` | src/bot/handler.js:42-57 | with distinct labels, each of the three labels selects its own handler; the delete and mark-bought labels and a missing text are free text |
| `CommandHandler.StartCommand` | src/bot/handler.js:18-27 | the start step: resolve the sender, then send the welcome text with the main menu; its effects are stated by `CommandHandler.StartResolvesThenGreets` |
| `CommandHandler.StopCommand` | src/bot/handler.js:29-37 | the stop step: send the goodbye text and remove the keyboard; stated by `CommandHandler.StopOnlySends` |
| `CommandHandler.ViewListCommand` | src/bot/handler.js:60-79 | the view-list step: resolve, read the items, send the notice or the rendered list; stated by `CommandHandler.ViewListReplies` and `ListView.ViewTextLines` |
| `CommandHandler.AddItemsCommand` | src/bot/handler.js:81-91 | the add-items step: set adding mode under `msg.from.id` and prompt; stated by `CommandHandler.AddItemsEntersAddingMode` |
| `CommandHandler.TextTypingCommand` | src/bot/handler.js:93-112 | the free-text step: the two guards, then resolve, store the trimmed text and confirm; stated by `CommandHandler.TextTypingIgnored`, `CommandHandler.TextTypingAddsItem` and `CommandHandler.TextTypingRepliesIff` |
| `CommandHandler.CancelAddItemsCommand` | src/bot/handler.js:114-125 | the cancel step: resolve, delete the entry under the resolved id, confirm; stated by `CommandHandler.CancelDeletesResolvedKey` |
| `CommandHandler.MessageCommand` | src/bot/handler.js:39-58 | the dispatch step: the handler `CommandHandler.Route` selects; stated by `CommandHandler.MessageCommandDispatch` |
| `CommandHandler.StartResolvesThenGreets` | src/bot/handler.js:18-27 | start resolves the sender once and sends one welcome message with the main menu; no mode or item changes |
| `CommandHandler.StopOnlySends` | src/bot/handler.js:29-37 | stop sends one keyboard-removing message and changes nothing else |
| `CommandHandler.ViewListReplies` | src/bot/handler.js:60-79 | view-list resolves once and sends one message: the empty notice with the main menu, or the rendered list; nothing is stored |
| `CommandHandler.AddItemsEntersAddingMode` | src/bot/handler.js:81-91 | add-items sets adding mode for `msg.from.id`, keeps every other key's entry, and sends one prompt with the add-items menu |
| `CommandHandler.TextTypingIgnored` | src/bot/handler.js:98-99 | outside adding mode, or for missing, empty or `/`-prefixed text, free text changes nothing and sends nothing |
| `CommandHandler.TextTypingAddsItem` | src/bot/handler.js:101-111 | otherwise the sender is resolved once, one item named by the trimmed text is added to that user's list, the mode stays, and one reply echoes the untrimmed text |
| `CommandHandler.BlankTextAddsEmptyName` | src/bot/handler.js:99-102 | white-space-only text in adding mode stores an item with an empty name |
| `CommandHandler.TextTypingRepliesIff` | src/bot/handler.js:93-112 | free text has an effect, and sends a reply, exactly when the sender is in adding mode and the text is accepted |
| `CommandHandler.TypingTwiceAddsTwo` | src/bot/handler.js:93-112 | two accepted texts in a row add two items, in order, and adding mode is still on |
| `CommandHandler.CancelDeletesResolvedKey` | src/bot/handler.js:114-125 | cancel deletes the entry under the resolved internal id, resolves once, and always sends "Add mode exited" with the main menu |
| `CommandHandler.AddThenCancelExitsIffIdsAgree` | src/bot/handler.js:84-118 | after add-items then cancel, adding mode is over exactly when the internal id equals the Telegram id |
| `CommandHandler.TextAfterCancelStillAdded` | src/bot/handler.js:84-118 | when the two ids differ, text typed after cancel is still stored as an item |
| `CommandHandler.MessageCommandDispatch` | src/bot/handler.js:39-58 | the message handler runs exactly the handler its first matching label names, else the free-text handler |
| `CommandHandler.OtherLabelsAreFreeText` | src/bot/handler.js:42-57 | the delete and mark-bought labels go to the free-text handler; outside adding mode they change nothing; in adding mode a non-empty label that is not a `/` command is stored, trimmed, as the sender's next item |
| `CommandHandler.TelegramBotCommandHandler.constructor` | src/bot/handler.js:11-16 | a new handler has an empty `userState` and outbox, and the given collaborators |
| `CommandHandler.TelegramBotCommandHandler.SendMessage` | src/bot/handler.js:22-26 | `sendMessage` appends one message to the outbox |
| `CommandHandler.TelegramBotCommandHandler.GetOrCreateUser` | src/bot/handler.js:20 | the resolver call updates the directory and the call log as `Resolve` says |
| `CommandHandler.TelegramBotCommandHandler.GetItems` | src/bot/handler.js:64 | `getItems` returns the user's list in store order, empty for an unknown user |
| `CommandHandler.TelegramBotCommandHandler.AddItemToStore` | src/bot/handler.js:102 | `addItem` changes only the item store, as `AddItem` says |
| `CommandHandler.TelegramBotCommandHandler.HandleStartCommand` | src/bot/handler.js:18-27 | the method performs the start step |
| `CommandHandler.TelegramBotCommandHandler.HandleStopCommand` | src/bot/handler.js:29-37 | the method performs the stop step |
| `CommandHandler.TelegramBotCommandHandler.HandleMessageCommand` | src/bot/handler.js:39-58 | the method performs the dispatch step with the handler's labels |
| `CommandHandler.TelegramBotCommandHandler.HandleViewListCommand` | src/bot/handler.js:60-79 | the method performs the view-list step |
| `CommandHandler.TelegramBotCommandHandler.HandleAddItemsCommand` | src/bot/handler.js:81-91 | the method performs the add-items step; `userState` becomes the old map with `msg.from.id` set to adding mode |
| `CommandHandler.TelegramBotCommandHandler.HandleTextTypingCommand` | src/bot/handler.js:93-112 | the method performs the free-text step and never changes `userState` |
| `CommandHandler.TelegramBotCommandHandler.HandleCancelAddItemsCommand` | src/bot/handler.js:114-125 | the method performs the cancel step |

## Left out

- Callback queries, inline-keyboard editing, and the delete-items and mark-items-bought commands are left out. src/bot/handler.js does not implement them; only its tests mention them.
- Error reporting is left out: the handler has no try/catch, and a failing collaborator simply fails the call.
- Bootstrap and wiring in src/bot/index.js are left out. That file passes four arguments to the three-parameter handler constructor; this is wiring, not logic.
- The user service is not part of this model. Its create-or-fetch contract is modelled by `Users.Directory`, which hands out increasing ids like an auto-increment key.
- The SQL item service is left out. The item store is a per-user sequence in insertion order, and a SELECT without ORDER BY promises no particular order.
- Asynchrony and interleaving are left out. Each handler is one atomic step, and the un-awaited `sendMessage` calls are appended in program order.
- Cache expiry and cache failures are left out. A cache entry is present or absent, and the 3600-second TTL appears only in the write log.
- `UserCache.Lookup`: requires every cached value to be a decimal digit string (`WellFormed`). `Number()` of other text (NaN, hex, exponents, surrounding white space) is not modelled.
- `UserCache.UserCacheService.GetUserId`: requires the same `Valid()` restriction on cached text, for the same reason.
- `Decimal.Show`: ids are unbounded naturals. JavaScript's loss of precision above 2^53 and its exponent notation from 10^21 up are not modelled. Negative Telegram ids are not modelled.
- Markdown options, menu payloads and the constants module are opaque. Options are a closed set of tags, and the menu labels are constructor parameters (`CommandHandler.Labels`). Reply texts are reproduced code point by code point.
- `ListView.ViewTextLines`: requires that no item name holds a line break. `trim()` keeps inner line breaks, so multi-line item text can reach the store; the reply for such a list is still `ViewText`, but it does not split back into one line per item.
- `CommandHandler.StartResolvesThenGreets`: "resolves before sending" is captured only as both effects of one step. The two logs are separate, so their relative order is not recorded.
