# Account-Seller-Bot purchase workflow in Dafny

A Dafny model of the Telegram bot that sells accounts by hand. A buyer picks a
product and sends a photo of the payment. The admin approves the pending
request. The buyer then receives the product's username and password and can
ask for the product's current one-time (TOTP) code. The model covers:

- the handlers of `bot.py` as state changes on the bot's `data` document
  (products, pending requests, language choices);
- the admin's step-by-step "add product" conversation of `bot_conversations.py`;
- the translation lookup of `botlib/translations.py`.

Layout, one module per concern:

| file | module | models |
|---|---|---|
| `wrappers.dfy` | `Wrappers` | `Option`; Python's `dict.get` |
| `numerals.dfy` | `Numerals` | `str(int)` and `int(str)` |
| `text.dfy` | `Text` | `str.split(sep)`, `str.split()`, `str.lower()` |
| `lists.dfy` | `Lists` | `list.remove(x)`, duplicate-free lists |
| `catalog.dfy` | `Catalog` | a product record and the edits made to it |
| `pending.dfy` | `Pending` | pending purchase entries and the first-match search |
| `bot.dfy` | `Bot` | class `BotState` (the global `data`), class `UserData` (`context.user_data`), the handlers |
| `conversations.dfy` | `Conversations` | the add-product conversation |
| `translations.dfy` | `Translations` | the translation table and `tr` |
| `scenarios.dfy` | `Scenarios` | whole exchanges, proved from the handlers' contracts alone |

How the source maps onto Dafny:

- A product is a Python dictionary, so any of its fields can be missing. `approve`
  can create a stub that holds only `buyers`. `Catalog.Product` therefore makes
  every field an `Option`. `if not product` is "missing or empty record"
  (`Catalog.FindProduct`).
- The handlers mutate the global `data` in place. `BotState` holds it in fields
  that the handler methods reassign. Each method says what the new state is, or
  that nothing changed.
- Each handler returns what it replies to the caller as a message key (`Bot.Msg`).
  It returns `None` when it exits without a reply, as every admin handler does
  for a non-admin caller. What it sends to other chats is returned as a list of
  `Bot.Outgoing` entries (recipient and kind).
- `save_data` is `BotState.Save`. It records the document in `stored` and leaves
  the in-memory state as it is. Every handler path that changes the document
  ends with `Saved()`. Every other path leaves the whole state unchanged.
- The TOTP generator at the current time is the parameter `otp` of `BotState.Code`.
- Admin handlers that change buyer lists keep `BuyersDistinct()`: no product
  lists a buyer twice.

Where the code differs from the system's documented design or from its tests,
the model follows the code:

- `addproduct` has no existence check. It overwrites the record under an id in
  use, and the old buyers go with it (`Scenarios.ReAddScenario`).
- The `editproduct` whitelist is `price`, `username`, `password`, `secret`.
  `name` is refused with `invalid_field`.
- `handle_photo` does not clear the selected product. A second photo queues a
  second entry (`Scenarios.DuplicateProofScenario`).
- Admin handlers return silently for a non-admin. They do not reply
  "Unauthorized". The conversation's entry point does reply "Unauthorized".
- There is no reject, delete-product or encryption code in the modelled files.
- The translation table holds only `hello` and `bye`, so other keys come back
  unchanged.

Two behaviours of the code follow from these rules:

- The conversation stores the raw message text as the product id, so an id
  can hold whitespace. Telegram splits a command at any whitespace. Take an
  id that starts with a word and then holds whitespace. The caption
  `handle_photo` sends for it makes `approve` look for that first word only,
  so the submission is never matched from its own caption
  (`Bot.CaptionCutsSpacedId`, `Scenarios.TabbedIdCaption`). An id that starts
  with whitespace is cut differently, or leaves `approve` with too few
  arguments.
- An approval for an unknown id creates a record holding only `buyers`
  (bot.py:219, `Catalog.WithBuyer`), with no `price`. The `products` listing
  reads `info['price']` with a plain subscript (bot.py:183). So once such a
  stub exists, `/products` raises `KeyError` when the listing reaches it, for
  every user.

## Model

| member | source | states |
|---|---|---|
| `Translations.Tr` | botlib/translations.py:13-15 | a known key and language give the table's text; an unknown key, or a known key in an unknown language, gives the key itself; `lang` defaults to `en`; no precondition, so it is total |
| `Translations.TableContents` | botlib/translations.py:1-15 | the table's four entries, the English default, and the key fallback for `welcome` and for an unknown language |
| `Bot.Render` | bot.py:128-133 | the reply text is the caller's language's, else English's, else the key itself; the session language defaults to `en` |
| `Bot.BotState.UserLang` | bot.py:136-138 | a user's stored language, looked up under `str(user_id)`, else `en` |
| `Numerals.IntToString` | bot.py:163 | `str(n)`: non-empty, starts with `-` exactly for a negative number, and is otherwise all decimal digits |
| `Numerals.ParseInt` | bot.py:211 | `int(s)` succeeds exactly on an optional sign followed by at least one digit; a leading `-` gives a non-positive value and no `-` a non-negative one; `ParseIntToString` pins the value |
| `Numerals.ParseIntToString` | bot.py:204-211 | `int(str(n)) == n`: the user id the caption prints reads back as the same id in `approve` |
| `Numerals.IntToStringInjective` | bot.py:163 | distinct users get distinct keys in `languages` |
| `Numerals.DigitsRoundTrip` | bot.py:211 | reading back the decimal digits of a number gives the number |
| `Text.Lower` | bot.py:155 | `lower()` keeps the length and lower-cases each character on its own |
| `Bot.BotState.SetLanguage` | bot.py:153-166 | no argument gives `language_usage` and no change; a lower-cased argument other than `en`/`fa` gives `languages_supported` and no change; otherwise the choice goes into the session and into `languages` under the caller's key, only the caller's stored language changes, the document is saved |
| `Text.IsSpace` | bot.py:211-212 | the whitespace set of Python's `str.split()`: U+0009-U+000D, U+001C-U+0020, U+0085, U+00A0, U+1680, U+2000-U+200A, U+2028, U+2029, U+202F, U+205F, U+3000 |
| `Text.Words` | bot.py:211-212 | `split()` without an argument, which Telegram uses to build `context.args`: every word is non-empty and free of whitespace |
| `Text.WordsAfterWord` | bot.py:211-212 | a word followed by any whitespace character splits off as the first word |
| `Text.WordsOfWord` | bot.py:211-212 | a single word is one word |
| `Text.WordsOfJoin` | bot.py:211-212 | words joined by single spaces split back into the same words |
| `Bot.CommandArgs` | bot.py:211-212 | the command's arguments are the words after the first, each non-empty and free of whitespace |
| `Text.Split` | bot.py:190 | `split` yields at least one part, no part holds the separator, and joining the parts with it gives the input back |
| `Text.SplitWithoutSeparator` | bot.py:190 | a string without the separator splits into itself alone |
| `Text.SplitAfterHead` | bot.py:190 | a separator-free head before the first separator becomes the first part |
| `Bot.BuyPid` | bot.py:190 | `split(':')[1]` exists exactly when the data holds a colon, and it holds no colon |
| `Bot.BuyPidRoundTrip` | bot.py:175-190 | the button data `buy:<pid>` gives back `pid` when the id has no colon |
| `Bot.BuyPidCutsAtColon` | bot.py:190 | an id with a colon is cut at its first colon |
| `Bot.BuyCallback` | bot.py:187-192 | stores the parsed id under `buy_pid` and asks for the proof; data with no colon raises, so nothing changes and there is no reply |
| `Bot.BotState.HandlePhoto` | bot.py:195-204 | no selected product (missing or empty) gives a silent no-op; otherwise exactly one entry `(sender, pid, largest photo)` is appended at the end of `pending`, the document is saved, the admin gets the photo with an `/approve` caption, and the session keeps its selection |
| `Bot.ApproveCaption` | bot.py:204 | the caption is the words `/approve`, `str(user_id)` and the id joined by single spaces |
| `Bot.ApproveArgs` | bot.py:210-213 | `approve`'s arguments parse exactly when there are two or more and the first is an integer; then they give that integer and the second argument |
| `Bot.IdHasNoSpace` | bot.py:204 | the printed user id in the caption holds no whitespace |
| `Bot.CaptionApprovesSubmission` | bot.py:204-212 | for a non-empty id without whitespace, the caption sent to the admin, issued as a command, makes `approve` look for exactly the submitted `(user, product)` pair |
| `Bot.CaptionCutsSpacedId` | bot.py:204-212 | for an id that starts with a word and then holds whitespace, the caption's command makes `approve` look for that first word instead |
| `Bot.BotState.FindPending` | bot.py:216-217 | the loop of `approve` stops at the first entry for the pair, or reports none when no entry matches; no earlier entry equals the one found, so `remove` takes out that very entry |
| `Pending.Matches` | bot.py:217 | an entry matches exactly when its user id and product id are the pair sought; the file id plays no part |
| `Pending.FirstMatch` | bot.py:216-217 | the index found holds a matching entry and no earlier entry matches; `None` exactly when no entry matches |
| `Lists.RemoveFirst` | bot.py:218 | `list.remove` on a list holding `x` gives a list one element shorter |
| `Lists.RemoveFirstMultiset` | bot.py:218 | `list.remove` takes out exactly one copy of `x`: the multiset of the result is the input's less one `x` |
| `Lists.RemoveFirstAt` | bot.py:216-218 | removing an entry whose first occurrence is at `i` cuts out position `i` and keeps the others in order |
| `Catalog.AddBuyer` | bot.py:219-221 | the buyer ends up listed; a list that already holds the buyer is returned unchanged; otherwise the old list is kept as a prefix and one id is added; a duplicate-free list stays duplicate-free |
| `Catalog.WithBuyer` | bot.py:219-221 | only `buyers` changes; an unknown id gets the stub `{buyers: [user_id]}` |
| `Catalog.WithBuyerIdempotent` | bot.py:219-221 | for every record, duplicates included, approving the same buyer twice gives the record approving once gave |
| `Catalog.ApproveTwiceNoDuplicate` | bot.py:219-221 | on a duplicate-free list, after approving the same buyer twice the list stays duplicate-free and holds the buyer exactly once |
| `Pending.LaterDuplicateSurvives` | bot.py:216-228 | after the first matching entry is resolved, a later entry for the same pair is still pending |
| `Bot.BotState.Approve` | bot.py:207-229 | a non-admin gets a silent no-op; bad arguments give `approve_usage`; no match gives `pending_not_found` with nothing changed; otherwise only the first matching entry is removed, the others stay in order, the buyer is added to the product (stub if unknown) without duplicates, the document is saved, and the buyer is sent the credentials and the code hint in their stored language |
| `Bot.BotState.Resolve` | bot.py:216-225 | once entry `i` is the first equal to itself, only that entry leaves the queue and the others keep their order, the buyer is added to the product (stub if unknown) without breaking duplicate-freedom, the document is saved, and the buyer gets the credentials and the code hint |
| `Catalog.BuyersOf` | bot.py:242 | `product.get('buyers', [])`: the stored list, or empty when the key is missing |
| `Catalog.FindProduct` | bot.py:238-239 | a product is found exactly when the id is present and its record is not empty, and then it is that record |
| `Bot.BotState.Code` | bot.py:232-250 | checks in order: missing argument, missing or empty product, caller not a buyer, missing or empty secret; a code is returned exactly when all pass, and it is `OTP(secret)`; nothing changes |
| `Catalog.NewProduct` | bot.py:265-271 | the record holds the four given fields, an empty buyer list and no name |
| `Bot.BotState.AddProduct` | bot.py:253-273 | a non-admin gets a silent no-op; fewer than five arguments gives `addproduct_usage`; otherwise the record under the id is replaced by the new one and the document is saved |
| `Catalog.EditField` | bot.py:290-293 | succeeds exactly for `price`/`username`/`password`/`secret`; the named field gets the value and every other field, `name` and `buyers` included, is unchanged |
| `Bot.BotState.EditProduct` | bot.py:276-295 | a non-admin gets a silent no-op; usage, not-found and invalid-field replies change nothing; otherwise only that product's field is overwritten and the document is saved |
| `Bot.ResendTargets` | bot.py:310-317 | every target is a buyer; without `uid` the targets are all buyers; with `uid` they are `[uid]` when it is a buyer and none otherwise |
| `Bot.BotState.Resend` | bot.py:298-325 | nothing changes; for each target in order, the credentials go out and then the code hint in the target's language; the targets are all buyers, or `[uid]` when `uid` is a buyer, otherwise nobody (`no_buyers`); a non-number `uid` gives `invalid_user_id` |
| `Bot.BotState.SendCredentials` | bot.py:321-324 | two messages per target in the targets' order: the credentials, then the code hint in that target's stored language |
| `Bot.BotState.Stats` | bot.py:328-347 | the product's price and its number of buyers; nothing changes |
| `Bot.BotState.Buyers` | bot.py:350-366 | the product's buyer list in stored order, or `no_buyers_list` when it is empty; nothing changes |
| `Lists.RemoveFirstNoDuplicates` | bot.py:382-383 | on a duplicate-free list `remove` takes the id out entirely and the list stays duplicate-free |
| `Bot.BotState.DeleteBuyer` | bot.py:369-387 | a non-admin gets a silent no-op; a listed buyer is removed, with nothing else changed, and the document is saved; an unlisted one gives `buyer_not_found` and no change |
| `Bot.BotState.ClearBuyers` | bot.py:390-404 | only the product's buyer list changes, and it becomes empty |
| `Bot.BotState.Save` | bot.py:37-39 | afterwards the stored document equals the in-memory one, which is untouched |
| `Bot.BotState.constructor` | bot.py:42-43 | the bot starts from the loaded document, which is also what is stored |
| `Conversations.AddProductMenu` | bot_conversations.py:9-19 | a non-admin gets `END` and "Unauthorized"; the admin gets `ASK_ID`; nothing is written |
| `Conversations.AddProductCancel` | bot_conversations.py:84-86 | the conversation ends |
| `Conversations.AddProductId` | bot_conversations.py:21-28 | "Cancel" ends with the session unchanged; any other text is stored under `pid` and leads to `ASK_PRICE` |
| `Conversations.AddProductPrice` | bot_conversations.py:30-37 | "Cancel" ends with the session unchanged; any other text is stored under `price` and leads to `ASK_USERNAME` |
| `Conversations.AddProductUsername` | bot_conversations.py:39-46 | "Cancel" ends with the session unchanged; any other text is stored under `username` and leads to `ASK_PASSWORD` |
| `Conversations.AddProductPassword` | bot_conversations.py:48-55 | "Cancel" ends with the session unchanged; any other text is stored under `password` and leads to `ASK_SECRET` |
| `Conversations.AddProductSecret` | bot_conversations.py:57-64 | "Cancel" ends with the session unchanged; any other text is stored under `secret` and leads to `ASK_NAME` |
| `Conversations.StoredName` | bot_conversations.py:78-79 | a name is stored exactly when the text is non-empty and not `-`, and then it is the text |
| `Conversations.DraftProduct` | bot_conversations.py:70-79 | the record carries the session's price, username, password and secret, an empty buyer list and the optional name |
| `Conversations.AddProductName` | bot_conversations.py:66-82 | "Cancel" ends with nothing written; otherwise the drafted record replaces whatever was under the stored id, the document is saved, and the conversation ends |
| `Scenarios.DraftSession` | bot_conversations.py:21-64 | the five steps before the name, given texts other than "Cancel", leave every answer in the session under its key and lead to `ASK_NAME` |
| `Scenarios.ConversationWalk` | tests/test_addproduct_conversation.py:54-98 | walking every step stores a product whose fields are the texts entered |
| `Scenarios.PickedP1` | bot.py:187-192 | pressing the `buy:p1` button leaves exactly `buy_pid = p1` in a fresh session |
| `Scenarios.ProofSubmitted` | bot.py:187-204 | after adding `p1`, picking it and sending a photo, exactly one entry for the largest photo is pending |
| `Scenarios.PurchaseScenario` | tests/test_admin_commands.py:43-51 | approving `42 p1` empties the queue, lists 42 as the only buyer and sends two messages to 42 |
| `Scenarios.CodeAfterPurchase` | bot.py:238-250 | after that purchase, user 7 gets `not_purchased`, buyer 42 gets the code, and a second approval gives `pending_not_found` |
| `Scenarios.TwoProofs` | bot.py:195-204 | the selection survives a photo, so two photos for an unknown id queue two entries in order and create no product |
| `Scenarios.DuplicateProofScenario` | bot.py:195-221 | two photos queue two entries; one approval resolves the earlier one, the later one stays, and the unknown id gets a stub with buyer 42 |
| `Scenarios.TabbedIdCaption` | bot_conversations.py:24 | an id entered as `a<TAB>b` reaches the admin in a caption whose command names `a` |
| `Scenarios.LanguageScenario` | bot.py:153-166 | `/setlanguage FA` stores `fa` for the caller, replies `language_set` with `Persian`, and that reply renders from the Persian texts |
| `Scenarios.ReAddScenario` | bot.py:265-271 | re-adding an id in use drops its buyers |

## Left out

- `botlib/storage.py` (file storage, atomic replace, the lock) and the file I/O of `load_data`/`save_data`: persistence is `BotState.Save`, which only records the document. A failed `save_data` write raises in the source after the in-memory change. `storage.save`, which `addproduct_name` uses, logs the `OSError` and swallows it (botlib/storage.py:38-44). Neither failure is modelled.
- Configuration (`ADMIN_ID` and `ADMIN_PHONE` from the environment, the token): the admin id is a constructor argument.
- `main` and the handler registration, and the `start` and `contact` handlers: these are Telegram wiring and fixed replies.
- The `products` handler and its keyboard: a read-only listing of the catalog. Its `KeyError` on a stub record is described above.
- The texts of `MESSAGES`, `.format` rendering and `send_tr`'s rendering: replies are message keys (`Bot.Msg`), and the code hint records the recipient's language.
- Telegram transport (`reply_text`, `send_message`, `send_photo`, `query.answer`): replies are returned, and other sends are returned as `Outgoing` entries.
- `pyotp.TOTP(secret).now()`: an external, time-dependent function, passed in as `otp`.
- Async execution and concurrent handlers: each handler runs to completion on its own.
- JSON values of unexpected types (a non-list `buyers`, non-string fields, extra keys): a product has exactly the six modelled fields.
- Numerals.ParseInt: accepts an optional sign and ASCII digits only. Python's `int()` also accepts surrounding whitespace, underscores and non-ASCII digits.
- Text.Lower: lower-cases ASCII letters only. Python's `lower()` works on all of Unicode.
- Bot.BotState.HandlePhoto: requires a non-empty photo list. The handler is registered for photo messages only, which always carry at least one size.
- Conversations.AddProductName: requires the five earlier answers in the session. The conversation reaches this step only after storing them; a missing key raises in the source.
- Conversations.AddProductMenu: does not model `ensure_lang`. That function, and the `storage` object the conversation saves through, are not in the modelled `bot.py`.
