# CUET intake bot: conversation and message cleanup, modelled in Dafny

This project models the core of a Telegram bot that onboards prospective members of
CUET (Covenant University Evangelical Team). The model covers two things.

- **The message tracker and its cleanup pass.** Every message the bot sends or edits
  in a chat is recorded in a per-chat list (`chat_messages`). When a conversation ends,
  a cleanup pass tries to delete every recorded id in order. A failure on one id does
  not stop the others, and the chat's entry is removed at the end whatever failed.
- **The three-step conversation.** `/start` sends a greeting, the registration-form
  link and a yes/no prompt (state STEP2). "yes" turns the prompt into the unit prompt
  and sends the unit menu (state STEP3). Choosing a unit confirms it and sends one
  final message, either a join-group link or a fallback text. It then arms cleanup and
  ends. `/cancel` acknowledges, arms cleanup and ends from any active state.

Files:

- `wrappers.dfy`: `Option`.
- `tracker.dfy`: module `Tracker`. The store is a `map<ChatId, seq<MsgId>>` held by
  class `MessageTracker`. `Record`, `RecordEach` and `Drained` are the value-level
  specifications, and `FailedIds` says which deletions failed. Lemmas about them sit
  beside the class.
- `units.dfy`: module `Units`. It holds `selection_map`, `GC_LINKS`, the unit menu's
  buttons and the choice of the final message.
- `conversation.dfy`: module `Conversation`. It holds the state table as functions:
  which handler an update reaches, what each handler returns, and the resulting state.
- `handlers.dfy`: module `Handlers`. Class `Bot` holds the four handlers as methods
  over the tracker, an `outbox` of sends and edits, and a `cleanups` log of armed
  cleanups.

Abstractions:

- A send or edit is an `Outgoing` entry whose id is a method parameter, since the
  platform assigns fresh ids.
- Message text is an abstract `Body` that carries the values the text is built from:
  the form URL, the unit label and the link.
- The outcome of each delete call is a parameter `succeeds: nat -> bool`, indexed by
  attempt number. So the same id recorded twice can succeed once and fail once.
- Arming cleanup appends the chat to `Bot.cleanups`. The pass that fires later is
  `MessageTracker.DeleteAll`.
- The link configuration (`LinkConfig`) is a parameter. Each group link is an
  `Option<string>`.

Behaviours of the code worth knowing:

- **"no" at the form question.** `step2` does nothing for data other than "yes" and
  returns no state, so the conversation stays in STEP2 (`Conversation.OnlyYesAdvances`).
- **A full conversation.** /start → "yes" → unit records seven entries for five distinct
  messages. The yes/no prompt is recorded when sent and again when edited, and so is
  the unit menu, so the cleanup pass attempts each of them twice (`ConversationRecords`).
- **A second "yes".** A repeated "yes" arrives in STEP3 and reaches `step3`. It confirms
  the unit "yes", sends the fallback text and ends the conversation
  (`RepeatedYesEndsConversation`).
- **`/cancel`.** It is registered as a fallback, so it is handled only while a
  conversation is active. From a user with no conversation in the chat it reaches no handler.

The handler table follows the conversation framework's default rules:

- A conversation belongs to one user in one chat (the framework's default per-chat and
  per-user keying). "Idle" below means that user has no conversation in that chat.
- The entry point is tried only while idle (no re-entry).
- While a conversation is active, the current state's handlers are tried first, then
  the fallbacks.
- A handler that returns `None` leaves the state unchanged.

## Model

| member | source | states |
|---|---|---|
| `Tracker.Record` | bot.py:48-51 | Recording an id adds the chat to the store if needed. The chat's list becomes the old list followed by the id, exactly one longer. |
| `Tracker.RecordKeepsDuplicates` | bot.py:48-51 | No deduplication: the id gets one more occurrence, so an id already recorded appears at least twice. |
| `Tracker.RecordLeavesOthers` | bot.py:48-51 | Recording for one chat leaves every other chat's list unchanged. |
| `Tracker.RecordEachAppends` | bot.py:48-51 | Recording ids one at a time leaves the old list followed by exactly those ids, in send order. |
| `Tracker.RecordEachFromEmpty` | bot.py:45-51 | For a chat with no entry, the recorded list is exactly the sequence of ids sent: no omissions, no duplicates added. |
| `Tracker.RecordEachOthers` | bot.py:48-51 | A run of recordings for one chat leaves every other chat's list unchanged. |
| `Tracker.Drained` | bot.py:65 | `pop(chat_id, None)` removes the chat's key and keeps every other entry; an absent chat is not an error. |
| `Tracker.FailedIds` | bot.py:57-63 | The ids whose deletion raised, in attempt order: never more than were attempted, and each one an attempted id. |
| `Tracker.FailedIdsExact` | bot.py:57-63 | An id is logged as failed if and only if some attempt at it raised, whatever the other attempts did: the `except` inside the loop logs every failure. |
| `Tracker.FailedIdsAreAttempted` | bot.py:57-63 | The logged failures are a sub-multiset of the attempted ids, never more of them. |
| `Tracker.AllSucceedNoneFailed` | bot.py:57-63 | When every delete succeeds, no failure is logged. |
| `Tracker.AllFailAllLogged` | bot.py:57-63 | When every delete fails, every attempted id is logged, in order, and the loop still reaches the end. |
| `Tracker.MessageTracker.constructor` | bot.py:45 | The store starts empty. |
| `Tracker.MessageTracker.Track` | bot.py:48-51 | The new store is `Record` of the old one: create an empty list if absent, then append. |
| `Tracker.MessageTracker.DeleteAll` | bot.py:54-65 | Attempts every id of the chat's list in stored order, or none for an absent chat. Failures never change what is attempted. Failures are logged in attempt order. Afterwards the store is the old one without the chat's key, whatever failed. |
| `Units.ChosenUnit` | bot.py:130 | `selection_map.get(data, data)`: for a `selection_map` key, its label; for any other data, the data itself. |
| `Units.GroupLink` | bot.py:135 | `GC_LINKS.get(data)`: None for data outside the seven linked units, else that unit's configured value (possibly None). |
| `Units.Truthy` | bot.py:136 | `if group_link:` is false for None and for the empty string, and true for every non-empty link. |
| `Units.SelectionMap` | bot.py:119-128 | `selection_map` has exactly the seven linked units plus "not_sure" as keys. |
| `Units.GcLinks` | bot.py:31-39 | `GC_LINKS` has exactly the seven unit keys; "not_sure" is not one of them. |
| `Units.FinalMessage` | bot.py:130-147 | Exactly one of two final messages. The join-group message is chosen iff `GC_LINKS.get(data)` is set and non-empty; it carries that link and the `selection_map` label (or the raw data). Data outside the linked units always gets the fallback text. |
| `Units.MenuLabelsEchoed` | bot.py:98-104 | Every menu button's data is a `selection_map` key, and the echoed label is that button's own caption. |
| `Units.MenuUnitsLinked` | bot.py:98-104 | The menu has eight buttons; every one except "Not sure yet" names a key of `GC_LINKS`. |
| `Units.UnknownDataEchoed` | bot.py:130-136 | Data that is not a `selection_map` key is echoed unchanged and gets the fallback text. |
| `Units.ConfiguredLinkSent` | bot.py:31-39 | For each of the seven units, a configured non-empty link produces the join message with that unit's label and exactly that link. |
| `Units.FallbackCases` | bot.py:135-147 | "not_sure" gets the fallback whatever is configured. For every data, an unset link, an empty link, or any link that is falsy in Python gets the fallback. |
| `Conversation.Dispatch` | bot.py:188-196 | While idle, only /start reaches a handler. While active, /cancel always reaches `cancel`. Callbacks reach `step2` exactly in STEP2 and `step3` exactly in STEP3. |
| `Conversation.Returns` | bot.py:86-161 | `start_command` returns STEP2. `step2` returns STEP3 iff the data is "yes", and no state otherwise. `step3` and `cancel` return END. |
| `Conversation.Advance` | bot.py:188-196 | One update: an update no handler takes leaves the state as it is. /cancel in an active state ends the conversation. STEP1 is entered only from STEP1 itself. |
| `Conversation.CancelFromAnyState` | bot.py:194 | From every active state, /cancel is dispatched to `cancel` and ends the conversation. A user with no conversation stays without one. |
| `Conversation.OnlyYesAdvances` | bot.py:94-109 | In STEP2, "yes" moves to STEP3 and any other data stays in STEP2. |
| `Conversation.EndsOnlyByStep3OrCancel` | bot.py:149-161 | A conversation ends only through a callback in STEP3 or through /cancel. |
| `Conversation.StartOnlyWhenIdle` | bot.py:188-189 | /start opens a conversation in STEP2 only while idle; during a conversation it changes nothing. |
| `Conversation.HappyPath` | bot.py:188-196 | /start, then "yes", then any unit passes through STEP2 and STEP3 and ends idle. |
| `Conversation.Step1Unreachable` | bot.py:41 | STEP1 is never entered by any sequence of updates from the idle state or STEP2/STEP3. |
| `Handlers.Bot.constructor` | bot.py:45 | The bot starts with the given tracker and configuration, nothing sent and no cleanup armed. |
| `Handlers.Bot.Send` | bot.py:70-73 | Each send or edit is followed at once by recording its id: the outbox grows by that one entry, and the store is `Record` of the old one. |
| `Handlers.Bot.StartCommand` | bot.py:69-86 | Sends greeting, form link (with the configured form URL) and yes/no prompt, in that order. Records exactly those three ids in send order, arms nothing and returns STEP2. |
| `Handlers.Bot.Step2` | bot.py:90-109 | On "yes": edits the prompt (recording its id again), then sends and records the menu (the eight buttons of `Units.UnitMenu`), and returns STEP3. Otherwise it sends nothing, records nothing and returns no state. |
| `Handlers.Bot.Step3` | bot.py:115-151 | Edits the menu into the confirmation with the chosen label (recording the menu id again). Sends exactly one final message, `FinalMessage`, and records it. Arms cleanup for the chat and returns END. |
| `Handlers.Bot.Cancel` | bot.py:157-161 | Sends and records the acknowledgement, arms cleanup for the chat and returns END. |
| `Handlers.ConversationRecords` | bot.py:69-151 | A full conversation in a fresh chat leaves exactly greeting, form link, prompt, prompt, menu, menu, final. Other chats are untouched. |
| `Handlers.RepeatedYesEndsConversation` | bot.py:115-151 | A second "yes" in STEP3 goes to `step3`: the label "yes" is echoed, the fallback text is sent and the conversation ends. |

## Left out

- The keep-alive HTTP server and its thread (bot.py:167-185) are HTTP I/O and concurrency.
- Timing is left out: the delay before the cleanup pass, the background task that runs
  it and the `DELETE_TIMER` value. Only the effect of a completed pass is modelled. The
  "2mins" in the user-facing text is display text only.
- The Telegram API calls and keyboard rendering are foreign library calls: sending,
  editing, deleting, answering a callback query, and building the inline keyboards.
  Sends are ids given as parameters, deletes are the `succeeds` outcome, and only the
  unit menu's captions and callback data are kept.
- Exact message wording and emoji in texts other than the unit labels are not modelled.
  `Body` names each message and carries the values that vary.
- The conversation framework itself is left out: update delivery, per-chat
  serialisation, the application builder and polling. Only the state table it is given
  is modelled, through `Conversation.Dispatch`, under its default rules stated above.
- Interleaving is left out: a handler appending to a chat's list while a cleanup pass
  for that chat is between two delete calls, and two cleanups armed for one chat.
  `DeleteAll` is modelled as one uninterrupted pass.
- Sharing a chat's list between users is left out. A conversation is keyed by (chat,
  user), but `chat_messages` is keyed by chat alone. So in a group chat, one user's
  cleanup pass removes the list that another user's running conversation is still
  appending to. The model has one conversation per chat.
- Environment loading (bot.py:18-28), the bot token and the print-based error handler
  (bot.py:164-165) are configuration and logging. The links and the form URL are the
  `LinkConfig` parameter. A logged deletion failure is an entry of `failed`.
- `Handlers.Bot.StartCommand`: a failing send is not modelled. In the code an exception aborts the handler after the ids recorded so far (bot.py:70-84), and the state stays unchanged.
- `Handlers.Bot.Step2`: a failing callback answer or edit or send is not modelled. The code then aborts with only part of the ids recorded (bot.py:92-107), and the state stays unchanged.
- `Handlers.Bot.Step3`: a failing callback answer, edit or send is not modelled. The code then aborts with only part of the ids recorded, arms no cleanup (bot.py:117-149), and the state stays unchanged.
- `Handlers.Bot.Cancel`: a failing send is not modelled. The code then records nothing, arms no cleanup (bot.py:158-160), and the state stays unchanged.
- The `if group_link` branch in `step3` is not written as two branches inside the method.
  It is the pure function `Units.FinalMessage`, and the method sends its result.
