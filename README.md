# Chii — a model of the marketplace-watcher bot core

Chii is a small Telegram bot framework. A chat subscribes to search queries with
`/add`, removes them with `/rm`, lists them with `/ls` and triggers a poll with
`/fetch`. A periodic job, `_poller`, runs every subscribed query through the
user's `parse_query` callback. Each result with a key the chat has not seen yet
is sent with `_send`. The key is recorded only when the send succeeded. The bot
keeps one JSON database: a map from chat id to `[queries, seen keys]`.

This project models that core in Dafny:

- `Text`: Python's `str.find`, `str.strip` (over Python's whitespace set),
  `str.split` on one character and `str.join`. It also proves that split and
  join are inverses.
- `Commands`: `_get_message_data` and `_parse_queries`.
- `Subscriptions`: the add loop and the remove loop of `/add` and `/rm` as
  folds. On a duplicate-free list, each is proved equal to an independent
  reference definition:
  `Distinct` (first occurrences) and `Without` (a filter).
- `Store`: the database, the `[[], []]` template of a new chat, and the
  well-formedness invariant. The invariant says queries and seen keys are
  duplicate-free and queries hold no newline.
- `Delivery`: the callbacks and `_send`'s decision. The callbacks come with
  the `start` check. `_send` sends nothing, a photo with caption, or a text.
- `Polling`: the pure specification of one poll.
  - `Visit`, `VisitAll`, `RunQueries` and `PollChat` handle one chat.
    `Poll` handles the whole database.
  - Each poll keeps a log of send attempts, and lemmas are proved about it.
    A key sent successfully is never sent again, in the same pass or in any
    later pass. A key whose sends all failed is tried again by the next pass.
- `Bot`: class `Chii` holds the database in a mutable field. Its methods are
  the imperative handlers, proved against the functions above:
  - `AddQuery`, `RemoveQuery` and `ListQuery`;
  - `Send`;
  - `PollOneChat` (the two inner loops of `_poller`);
  - `Poller` (the outer loop over chats);
  - `FetchQuery`;
  - `Start`.

The network transport is a parameter of type `Outgoing -> bool`. It answers
true when the Telegram call returned and false when it raised. The log of
attempts returned by the poll methods is a model device. It records each call
of `_send` the source makes, in order, so the model can state what was sent.

## Model

| member | source | states |
|---|---|---|
| Text.IsSpace | chii/main.py:90 | the characters `strip()` removes: Python's `str.isspace` set (tab to carriage return, the separators 0x1C-0x1F, space, 0x85, 0xA0, 0x1680, 0x2000-0x200A, 0x2028, 0x2029, 0x202F, 0x205F, 0x3000) |
| Text.Join | chii/main.py:86 | `sep.join(parts)`: the parts in order with one separator between neighbours, the empty string for no parts |
| Text.Find | chii/main.py:42 | `find` returns -1 exactly when the character is absent, otherwise the index of its first occurrence |
| Text.Leading | chii/main.py:90 | counts exactly the leading run of whitespace: every character before the count is whitespace, the one at it is not |
| Text.Trailing | chii/main.py:90 | counts exactly the trailing run of whitespace: every character after the cut is whitespace, the one before it is not |
| Text.Strip | chii/main.py:90 | `strip()` gives the slice between the outer whitespace runs; neither end of it is whitespace; it is empty exactly when the text is all whitespace |
| Text.Split | chii/main.py:90 | `split("\n")` gives at least one piece, and no piece contains the separator |
| Text.JoinSplit | chii/main.py:86-90 | joining the pieces of a split restores the text |
| Text.SplitJoin | chii/main.py:86-90 | splitting a join of a non-empty list of separator-free pieces gives back that list |
| Text.JoinCons | chii/main.py:86 | a join starting with a non-empty piece starts with that piece's first character |
| Commands.MessageData | chii/main.py:34-44 | the argument is everything after the first space; with no space it is the whole text |
| Commands.ParseQueries | chii/main.py:88-90 | gives at least one query, none containing a newline, and joined by newlines they are the stripped text (lines are not trimmed one by one) |
| Commands.StripUnchanged | chii/main.py:90 | text without whitespace at either end is unchanged by `strip()` |
| Commands.JoinEndsWithLast | chii/main.py:86 | a newline join ends with its last piece |
| Commands.ParseKeepsLines | chii/main.py:86-90 | parsing the newline join of lines gives back those lines, when the first line starts and the last line ends with a non-space |
| Subscriptions.AddQueries | chii/main.py:117-119 | the add loop keeps the old list as a prefix, and it holds exactly the queries of the old list and of the argument |
| Subscriptions.AddQueriesSnoc | chii/main.py:117-119 | one more argument line is appended exactly when the list does not hold it yet |
| Subscriptions.RemoveFirst | chii/main.py:103 | `list.remove` drops exactly one occurrence of the query |
| Subscriptions.RemoveQueries | chii/main.py:101-103 | the remove loop only ever removes: the result is a sub-multiset of the old list |
| Subscriptions.RemoveQueriesSnoc | chii/main.py:101-103 | one more argument line is removed exactly when the list holds it |
| Subscriptions.DistinctMembers | chii/main.py:117-119 | the reference `Distinct` keeps every element |
| Subscriptions.DistinctOfNoDup | chii/main.py:117-119 | `Distinct` leaves a duplicate-free list alone |
| Subscriptions.AddIsDistinct | chii/main.py:117-119 | on a duplicate-free list, `/add` gives the first occurrences of the old queries followed by the argument lines |
| Subscriptions.AddKeepsNoDup | chii/main.py:117-119 | `/add` keeps a chat's queries duplicate-free, even for repeated argument lines |
| Subscriptions.AddPresent | chii/main.py:118 | adding queries that are all present changes nothing |
| Subscriptions.AddIdempotent | chii/main.py:117-119 | the same `/add` twice equals it once |
| Subscriptions.WithoutMembers | chii/main.py:101-103 | the reference `Without` keeps exactly the queries not named |
| Subscriptions.WithoutKeepsNoDup | chii/main.py:101-103 | filtering keeps a list duplicate-free |
| Subscriptions.WithoutSnoc | chii/main.py:101-103 | filtering by one more line equals filtering the filtered list by that line |
| Subscriptions.RemoveFirstIsWithout | chii/main.py:103 | on a duplicate-free list, `list.remove` is the filter of that one query |
| Subscriptions.WithoutAbsent | chii/main.py:102 | filtering by lines the list does not hold changes nothing |
| Subscriptions.RemoveIsWithout | chii/main.py:101-103 | on a duplicate-free list, `/rm` removes exactly the named queries and keeps the rest in order |
| Subscriptions.RemoveKeepsNoDup | chii/main.py:101-103 | `/rm` keeps a chat's queries duplicate-free |
| Subscriptions.RemoveIdempotent | chii/main.py:101-103 | on a duplicate-free list, the same `/rm` twice equals it once |
| Subscriptions.RemoveAbsent | chii/main.py:102 | removing queries that are all absent changes nothing (no error is raised) |
| Store.RecordOf | chii/main.py:83 | `db.get(chat_id, USER_DB_TEMPLATE())`: the stored record of a known chat, and the empty `[[], []]` record of an unknown one (the same lookup at lines 99 and 115) |
| Store.RecordOfOk | chii/main.py:8 | the record of a chat in a well-formed database is well formed, including the `[[], []]` template of a chat without a record |
| Store.UpdateKeepsWellFormed | chii/main.py:105 | writing one well-formed record into a well-formed database keeps it well formed |
| Delivery.InitialHooks | chii/main.py:52-55 | a freshly constructed bot has none of the three required callbacks, so `start` refuses it |
| Delivery.DefaultImageSendsText | chii/main.py:54 | with the default `get_image`, every crafted message goes out as a text message |
| Delivery.NoImage | chii/main.py:54 | the default `get_image`, `lambda x: None`: no image for any result |
| Delivery.Ready | chii/main.py:183 | the test in `start`: `parse_query`, `craft_message` and `get_key` are all registered |
| Delivery.Dispatch | chii/main.py:130-140 | `_send` sends something exactly when `craft_message` gives a message; it goes to the given chat, and it is a photo exactly when `get_image` gives a URL |
| Delivery.Delivered | chii/main.py:130-145 | `_send` returns True only for a crafted message, and then exactly when the transport call returned |
| Polling.Visit | chii/main.py:165-172 | one result: skipped when its key is missing or in `seen`; otherwise sent, and the key appended to `seen` only when `_send` returned True |
| Polling.VisitAll | chii/main.py:164-172 | the loop over one query's results, in the order the callback gives them |
| Polling.RunQueries | chii/main.py:161-172 | the loop over a chat's queries in stored order, each run through `parse_query` |
| Polling.PollChat | chii/main.py:158-172 | one chat's pass, starting from its stored `seen` list with no sends made |
| Polling.Selected | chii/main.py:155-156 | `_poller`'s target filter: every chat is polled when there is no target, and only the target chat otherwise |
| Polling.Poll | chii/main.py:152-177 | the database after a poll: each selected chat's `seen` replaced by its pass's result, everything else as read |
| Polling.OkKeysAppend | chii/main.py:171-172 | the keys recorded over two stretches of a pass are those of each, in order |
| Polling.OkKeysMembers | chii/main.py:171-172 | a key is recorded exactly when some send for it succeeded |
| Polling.ConcatNoDup | chii/main.py:167-172 | appending only unseen, distinct keys keeps the `seen` list duplicate-free |
| Polling.VisitExtends | chii/main.py:164-172 | one result gives at most one send, only for a present, unseen key, and records the key exactly when `_send` returned True |
| Polling.ExtendsTrans | chii/main.py:161-172 | consecutive stretches of a pass compose: every send is for a key unseen at the start |
| Polling.TransLog | chii/main.py:161-172 | the attempts of two consecutive stretches are those of the first followed by those of the second |
| Polling.TransKeys | chii/main.py:161-172 | over two stretches `seen` grows by exactly the successful keys, without repeats |
| Polling.TransFresh | chii/main.py:167 | every attempt of two stretches is for a key unseen at the start of the first |
| Polling.LaterKeysUnseen | chii/main.py:167 | a key recorded later was not in `seen` earlier |
| Polling.VisitAllExtends | chii/main.py:164-172 | the loop over one query's results only sends fresh keys and records exactly the successes |
| Polling.RunQueriesExtends | chii/main.py:161-172 | the loop over all queries only sends fresh keys and records exactly the successes |
| Polling.VisitAllFrom | chii/main.py:162-164 | every attempt in a query's loop comes from a result of that query |
| Polling.RunQueriesFrom | chii/main.py:161-164 | every attempt of a pass comes from a result of one of the chat's queries |
| Polling.VisitAllCovers | chii/main.py:164-172 | every result with a present key not in `seen` at the start of the loop gets an attempt for that key during it |
| Polling.CoversStep | chii/main.py:161-172 | a key attempted or recorded by the earlier stretch of a pass, and unseen at its start, is among the attempts of the whole pass |
| Polling.RunQueriesCovers | chii/main.py:161-172 | every result of every query whose key is present and not in `seen` at the start of the pass gets an attempt for that key during it |
| Polling.PollChatRecords | chii/main.py:158-172 | a chat's new `seen` is the old one followed by the keys of the successful sends; it stays duplicate-free; every attempt is for this chat, for a key absent before the pass, and succeeded exactly as `_send` decides |
| Polling.VisitSkips | chii/main.py:167 | the loop body attempts a key only when it is not in `seen` at that moment |
| Polling.TransSkips | chii/main.py:161-172 | two consecutive stretches that each attempt only unrecorded keys make one that does |
| Polling.SkipsEarly | chii/main.py:161-172 | an attempt of the earlier stretch was for a key unrecorded at its time, measured from the start of the whole |
| Polling.SkipsLate | chii/main.py:161-172 | an attempt of the later stretch was for a key unrecorded at its time, measured from the start of the whole |
| Polling.VisitAllSkips | chii/main.py:164-172 | the loop over one query's results attempts only keys not in `seen` at that moment |
| Polling.RunQueriesSkips | chii/main.py:161-172 | a chat's whole pass attempts only keys not in `seen` at that moment |
| Polling.DeliveredOnce | chii/main.py:167-172 | within one pass, once a send for a key succeeded, no later attempt of the pass is for that key |
| Polling.NoRedelivery | chii/main.py:167-177 | a key delivered in one pass is never sent to that chat by the next pass, whatever its queries, callbacks and network outcomes |
| Polling.RetryAfterFailure | chii/main.py:170-172 | a key whose every send failed is not recorded, and the next pass over the same queries sends it again |
| Polling.ForChatAppend | chii/main.py:152 | a chat's attempts in two logs are those of each, in order |
| Polling.PollChatOwn | chii/main.py:152-172 | every attempt of a chat's pass is made for that chat |
| Polling.ForChatOwn | chii/main.py:152-172 | the attempts of one chat's pass belong to that chat only |
| Polling.PollFrame | chii/main.py:174-177 | a poll keeps the set of chats, every chat's queries and each unpolled chat; it only extends each polled chat's `seen`; a well-formed database stays so |
| Polling.ProgressStart | chii/main.py:150-152 | before the loop over chats, nothing is done and the database is the one read |
| Polling.ProgressSkip | chii/main.py:155-156 | a chat other than the target is skipped without effect |
| Polling.ProgressStep | chii/main.py:152-177 | polling one selected chat and writing its `seen` keeps the invariant of the loop over chats |
| Polling.DbStep | chii/main.py:174-177 | writing back one chat's `seen` keeps the database half of that invariant |
| Polling.LogStep | chii/main.py:158-172 | appending one chat's attempts keeps the log half of that invariant |
| Polling.ProgressDone | chii/main.py:152-177 | once every chat is handled, the database and the attempts are those of the whole poll |
| Bot.Chii.constructor | chii/main.py:48-58 | the bot starts with the given callbacks and the stored database |
| Bot.Chii.Start | chii/main.py:183-184 | the bot may start exactly when `parse_query`, `craft_message` and `get_key` are all set |
| Bot.Chii.AddQuery | chii/main.py:108-122 | an empty argument changes nothing; otherwise the chat's record, created as `[[], []]` if missing, gets every new parsed query appended and no other chat changes; well-formedness is kept |
| Bot.Chii.AppendNew | chii/main.py:117-119 | the add loop computes `AddQueries`: old list as prefix, exactly the queries of both |
| Bot.Chii.RemoveQuery | chii/main.py:92-106 | an empty argument changes nothing; otherwise each parsed query the chat holds is removed, the record being created if missing, and no other chat changes; well-formedness is kept |
| Bot.Chii.RemovePresent | chii/main.py:101-103 | the remove loop computes `RemoveQueries`, which on a duplicate-free list is the filter `Without` |
| Bot.Chii.ListQuery | chii/main.py:78-86 | the reply is the chat's queries joined by newlines, empty for an unknown chat, and on a well-formed database, when the chat has at least one query, it splits back into exactly those queries |
| Bot.ListAfterFirstAdd | chii/main.py:78-122 | after the first `/add` of distinct lines, `/ls` replies with the stripped argument |
| Bot.Chii.Send | chii/main.py:124-145 | no message means no send and False; an image means a photo with the message as caption, otherwise a text; the result is whether the transport returned |
| Bot.Chii.PollOneChat | chii/main.py:158-172 | the two inner loops compute exactly `PollChat`: skip a missing or seen key, send otherwise, record the key only after a successful send |
| Bot.Chii.Poller | chii/main.py:147-177 | the database afterwards is `Poll` of the one read at the start; each chat's attempts are exactly those of its pass; only polled chats' `seen` lists change, and only by growing; well-formedness is kept |
| Bot.Chii.FetchQuery | chii/main.py:73-76 | `/fetch` polls only the invoking chat: other chats get no attempts and keep their records |

## Left out

- The Telegram transport, the image download and Markdown parsing are one oracle `Outgoing -> bool`. Within one poll the same outgoing message has the same outcome; a retry across polls may use a different oracle.
- The JSON database file is the field `db`. Reading and writing it, including creating an empty file, is not modelled.
- The lock and the races it leaves open are not modelled. `_poller` holds the lock only for its first read of the database and for each chat's write-back. While a chat is being polled, `/add`, `/rm` or a second poll (a `/fetch` next to the hourly job) can run. Two overlapping polls can both deliver the same key. The model runs every handler and every poll to completion, one at a time.
- The decorator setters are not modelled. The callbacks are given to the constructor. `InitialHooks` is the state the source's constructor sets up, with `NoImage` as `get_image`.
- The schedule interval, the `Updater`, handler registration and `start_polling` are not modelled.
- The packaging script is not part of this model.
- The chat id's conversion to a string is not modelled. An update carries the chat id already as a string.
- The order in which `dict.items()` visits the chats is left unspecified: the model picks any pending chat. Each chat's attempts are stated in order, but not how the attempts of different chats interleave.
- Bot.Chii.ListQuery: the send of the reply is not modelled. The method returns the text it would send. A failing send raises in the source; the model does not say what happens then.
- Exceptions raised by the user callbacks are not modelled. The callbacks are total functions.
- When a send raises, `_send` prints the exception before returning False. The model keeps the False and drops the console output.
- Bot.Chii.Start: `all([...])` tests truthiness, and the model tests "is set". Every callable is truthy, so the two agree on functions.
