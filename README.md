# Telegram spam-moderation bot: the moderation engine in Dafny

This project models the decision engine of a Telegram group moderation bot (`bot.py`).
For every group message, the bot decides whether to ignore it, delete it, or count it as a
violation. A violation blacklists the sender and then warns or bans them. It also models
the administrators' blacklist commands and the blacklist's save/load record.

Files:

- `option.dfy`: module `Options`. `Option` stands for Python's `None`.
- `spam_filter.dfy`: module `SpamFilter`. It holds `is_spam_text`, the phrase list
  `BAN_PATTERNS`, and `URL_REGEX` written as a predicate over indices. The regular
  expression is stated exactly:
  - it matches one of the heads `http://`, `https://`, `t.me/` or `www.`;
  - the head is compared under `re.IGNORECASE`: ASCII upper case letters match, and
    U+017F (long s) matches `s`;
  - then at least one character outside Python's `\s` must follow.

  Each scanning function (`Contains`, `AnyPhrase`, `FindsUrlFrom`) is proved equal to an
  existential specification.
- `blacklist_store.dfy`: module `BlacklistStore`. It holds the in-memory blacklist (two
  sets) and `load_blacklist` over an abstract view of the file. It includes the partial
  load, where `user_ids` is read but `usernames` raises. `save_blacklist` is the list image
  of the two sets. The save/load round trip is proved.
- `moderation.dfy`: module `Moderation`. Class `Moderator` has fields `userIds`,
  `usernames` and `violations`, which the handlers change in place:
  - `HandleMessage` models `handle_message` and calls `DeleteAndLog`;
  - `AddBlacklist`, `RemoveBlacklist` and `ListBlacklist` model the three commands.

  Each handler returns the platform calls it makes, in order, as `Effect` values: `Delete`,
  `Save`, `AdminLookup`, `Warn`, `Ban`, `BanNotice` and `Answer`. Two client methods run
  a fresh engine through two message sequences: a first offence followed by another
  message from the same sender, and three violations separated by admin removals, which
  end in a ban.

Inputs that stand in for external code:

- Lower-casing (`str.lower`) is a parameter `lower: string -> string`. The class stores it
  as a constant.
- The answer of `is_admin` (bot.py:132-137) is a boolean input. That input is the
  fail-closed result: a failed lookup reads as "not an admin". The lookup itself shows up
  as the effect `AdminLookup(uid)`, at the point where the handler awaits it.

Facts about `bot.py` that the model keeps:

- The commands take only a reply-to-message target (bot.py:196, 215). They take no
  `@handle` and no numeric id argument.
- `list_blacklist` has no admin check (bot.py:226-229).
- `remove_blacklist` answers "removed" whether or not anything was listed (bot.py:215-221).
- The ban call and the two notices in `handle_message` are not wrapped in `try`
  (bot.py:174-183).

## Model

| member | source | states |
|---|---|---|
| `SpamFilter.IsSpamText` | bot.py:106-110 | absent or empty text is never spam; otherwise spam exactly when the lower-cased text contains a URL match or one of the phrases |
| `SpamFilter.Contains` | bot.py:110 | the scan returns true exactly when the phrase occurs as a contiguous substring (`p in t`) |
| `SpamFilter.AnyPhrase` | bot.py:110 | `any(p in t for p in ps)` is true exactly when some phrase of the list occurs in the text |
| `SpamFilter.FindsUrlFrom` | bot.py:55 | the search from index `i` succeeds exactly when `URL_REGEX` matches at some index at or after `i` |
| `SpamFilter.UrlNeedsPunctuation` | bot.py:55 | every URL match needs a `/` or a `.` in the text, because each head of the pattern holds one |
| `SpamFilter.SpamSurvivesPadding` | bot.py:106-110 | adding text on either side of spam never makes it pass: the verdict on lower-cased text is monotone under extension |
| `SpamFilter.JobOfferIsSpam` | bot.py:44-53 | the job offer "Ищу помощников для онлайн-работы, доход: от $500" is spam |
| `SpamFilter.SmallTalkIsClean` | bot.py:44-55 | "See you at the park tomorrow" is not spam: no phrase (each has a Cyrillic `о`) and no URL |
| `BlacklistStore.Load` | bot.py:73-84 | no file, an unreadable file or a bad `user_ids` keeps the sets; a missing `user_ids` or `usernames` key reads as empty; a bad `usernames` keeps the new ids with the old names |
| `BlacklistStore.ListOfLists` | bot.py:92-93 | `list(s)` holds each element of the set exactly once |
| `BlacklistStore.LoadListed` | bot.py:80-81 | loading two duplicate-free lists gives back exactly their sets, in whatever order they were written |
| `BlacklistStore.LoadAfterSave` | bot.py:87-101 | loading what `save_blacklist` writes restores both sets exactly, whatever the sets held before |
| `Moderation.Moderator.constructor` | bot.py:57-61 | start-up state: the loaded sets and an empty violation map; `lower` maps `""` to `""`, as `str.lower` does |
| `Moderation.Moderator.DeleteAndLog` | bot.py:113-129 | the message is always deleted; with auto-blacklist, the id and (only when the username is non-empty) the lower-cased username are added, then saved; the counters are untouched |
| `Moderation.Moderator.HandleMessage` | bot.py:142-183 | out of scope: no effect and no change; blacklisted: only `Delete`, no lookup, no change; not spam: nothing; admin: only the lookup; violation: counter +1 with other keys unchanged, delete, id and name blacklisted, `Save` of the new sets, then `Warn` for new counts up to 2, or `Ban` and `BanNotice` from 3 on; counters never decrease |
| `Moderation.Moderator.AddBlacklist` | bot.py:188-204 | non-admin: rejection and no change; no reply target: a hint and no change; otherwise the target's id and lower-cased non-empty username are inserted and saved, idempotently |
| `Moderation.Moderator.RemoveBlacklist` | bot.py:207-223 | non-admin or no reply target: no change; otherwise id and lower-cased non-empty username are discarded; removing an absent entry changes nothing but still saves |
| `Moderation.Moderator.ListBlacklist` | bot.py:226-229 | answers with both sets, with no admin lookup and no state change |
| `Moderation.FirstOffenceThenSilence` | bot.py:153-172 | with an empty stored list, a first spam message from a non-admin is deleted, blacklists the sender, saves and warns; the sender's next message is only deleted, whoever and whatever it is |
| `Moderation.ThirdViolationBans` | bot.py:169-183 | a spammer is counted again only after an admin removes them; the first and second counted violations warn, the third bans and sends the ban notice |

## Left out

- The HTTP liveness server and its thread (bot.py:1-16, 238). These are I/O and
  concurrency, with no effect on moderation.
- Telegram transport and `async`/`await`. Calls are effect values. The admin status is an
  input.
- Transport exceptions:
  - the model lists the calls a handler makes when each call returns normally;
  - a failed `msg.delete()` or `get_member` is swallowed in the source, and the model
    matches that;
  - a failing ban or notice call would end `handle_message` early, and the later effects
    in the list would not happen;
  - every state change comes before those calls, so the state the model computes is the
    same either way.
- File I/O, JSON syntax, the printed log lines, and a save that fails midway. `Save`
  carries the sets the bot writes.
- `BlacklistStore.Load`: JSON values that are iterable but not lists (a string or an
  object) are read by `set()` as their characters or keys; the model treats every
  non-list value as one that `set()` rejects.
- `BlacklistStore.Load`: JSON elements of other types (strings in `user_ids`, numbers in
  `usernames`) are not modelled; the lists hold ints and strings respectively.
- Unicode case folding. `str.lower` is a parameter.
- The message wording, the HTML mentions (bot.py:176, 182) and the rendering of
  `list_blacklist` (set iteration order is unspecified). `Listing` carries the two sets.
- Logging, and the handler wiring (bot.py:63-68, 234-253). The wiring passes only
  non-command text or caption messages to `handle_message`.
- The chat id of a ban, and the message id of a delete. Each handler acts on the one chat
  and one message it is given.
