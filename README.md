# TelgBot automation engine in Dafny

This project models the logic of a single-owner Telegram automation bot. There are two parts.

- **The automation engine (`TelegramAutoBot`, src/bot.py).** It holds three feature switches (auto posting, "reply guy" mode, away mode), a queue of scheduled posts, the reply templates, the fixed away messages, and a map from each sender to the date of their last away notice. Owner commands toggle the switches, add posts and templates, list the posts, report status and send the next post on demand. A handler for incoming text sends an away notice at most once per sender per day and replies with a template with some probability. The post job sends the oldest unsent post and marks it sent.
- **The configuration checks (`Config`, src/config.py).** `validate` returns an error list in a fixed order. `_parse_list` splits on commas, strips each item and drops empty ones. `is_production` and the `'true'` flag parse are also modelled.

## How the model is built

- `Bot.BotState` holds the engine's state as a value. Every command and event is a step function (`OnToggle`, `OnAddPost`, `OnAddReply`, `OnListPosts`, `OnStatus`, `OnMessage`, `OnPostJob`, `OnPostCommand`). Each maps the old state and the inputs to the new state and the messages the bot sends (`Bot.Message`). These functions keep the invariant `Bot.Inv`: the eight default templates stay in front, and a post has a sending time exactly when it has been sent.
- `Bot.AutoBot` is the bot object. Its fields are the entries of `self.config` and the bot's lists and map, and the methods update them in place. Each method is proved to take exactly the step its step function describes.
- `BotProperties` proves what the commands promise, one lemma per property. `BotRuns` puts all events in one type and proves facts about whole runs. The main one: starting from a fresh bot, a sender gets at most one away notice per date in any interleaving of events, provided message dates never go back to an earlier date.
- `Posts` models the scheduled-post records, the choice of the oldest unsent post, the pending count and the `/list_posts` listing. `Strings` models the Python `str` operations the code uses.
- The outside world supplies these values as parameters:
  - the sender's user id
  - "today" and "now", as opaque ISO strings
  - the value of `random.random()`, a real in [0, 1)
  - the choices of `random.choice`, as naturals taken modulo the list length
  - whether a send succeeded
- A command's words (`context.args`) come in as a sequence of strings.

In a few places the code's own comments and unused settings suggest a different behaviour. The model follows the code:

- `MAX_SCHEDULED_POSTS` and `MAX_REPLY_TEMPLATES` (src/config.py:49-50) are never consulted, so posts and templates have no capacity limit.
- `/post` tells the owner the post went out even when the send failed. The `except` at src/bot.py:307-309 never sees the failure, because `auto_post_job` catches it itself (src/bot.py:351-352).
- The comment at src/bot.py:55 says away records are reset daily, but nothing resets them. A record therefore keeps the date of the sender's last notice. The "Away Messages Sent Today" figure in `/status` is the number of distinct senders ever notified (`BotProperties.AwayCountIsDistinctSenders`).
- The comment at src/bot.py:316 says the job should not run automatically when auto posting is disabled, but `auto_post_job` never reads the switch (`BotProperties.PostJobIgnoresAutoPostFlag`; see Findings).
- If sending the away notice fails, `reply_text` raises and the handler stops. No date is recorded and no reply is sent.

## Model

| member | source | states |
|---|---|---|
| `Strings.Strip` | src/config.py:74 | `str.strip()`: no whitespace (Python's `isspace` set) at either end; the result is the input with only whitespace cut from its ends; it is empty exactly when the input is all whitespace |
| `Strings.StripIdempotent` | src/config.py:74 | stripping a stripped string changes nothing |
| `Strings.Split` | src/config.py:74 | `value.split(',')` yields at least one part and no part contains the separator |
| `Strings.SplitAround` | src/config.py:74 | splitting `a + sep + b` gives the parts of `a` followed by the parts of `b`, so parts keep their left-to-right order |
| `Strings.JoinSplit` | src/config.py:74 | joining the parts of a split with the separator gives back the original string |
| `Strings.SplitJoin` | src/bot.py:194 | a `" ".join` of space-free words splits back into exactly those words |
| `Strings.LowerEqualsWord` | src/config.py:21-23 | lower-casing a string gives a lower-case word exactly when the string spells that word letter by letter in either case |
| `Config.Validate` | src/config.py:80-99 | returns the error list of the failed checks, and `is_valid` is true exactly when that list is empty |
| `Config.ViolationsExactlyFailedChecks` | src/config.py:84-97 | each of the five messages is in the list exactly when its check fails (empty token, user id 0, interval below 1, probability outside [0, 1], min delay above max) |
| `Config.ViolationsInCheckOrder` | src/config.py:82-99 | every error is one of the five messages; they follow the check order without repeats, so there are at most five |
| `Config.WellFormedSettingsAccepted` | src/config.py:80-99 | a non-empty token, a non-zero user id, an interval of at least 1, a probability in [0, 1] and min ≤ max give no errors |
| `Config.ValidationBoundaries` | src/config.py:90-97 | an interval of 1 passes and 0 fails; equal delays pass and min = max + 1 fails |
| `Config.ParseList` | src/config.py:70-74 | `_parse_list("")` is empty; every item is non-empty, has no whitespace at either end and contains no comma |
| `Config.ParseListAround` | src/config.py:70-74 | the items of `a + "," + b` are the items of `a` followed by those of `b`, so items keep their input order |
| `Config.ParseListSingle` | src/config.py:72-74 | a comma-free value gives its stripped self as one item, or nothing if it is blank |
| `Config.ParseListItemsStripped` | src/config.py:74 | stripping an item again leaves it unchanged |
| `Config.ParseFlagMeaning` | src/config.py:21-23 | an unset flag is off; a set flag is on exactly when its value spells `true` in any mix of cases |
| `Config.IsProductionMeaning` | src/config.py:76-78 | `is_production` holds exactly when the environment spells `production` in any mix of cases; the default `development` is not production |
| `Posts.FirstUnposted` | src/bot.py:328-335 | the chosen post is unsent and every earlier post is sent; there is none exactly when every post is sent |
| `Posts.PendingCount` | src/bot.py:243 | the pending count is at most the number of posts, and zero exactly when nothing is unsent |
| `Posts.MarkPostedPending` | src/bot.py:347-349 | marking an unsent post as sent lowers the pending count by exactly one |
| `Posts.PendingAppend` | src/bot.py:195-199 | appending an unsent post raises the pending count by one |
| `Posts.Overflow` | src/bot.py:218-219 | an overflow line appears exactly when there are more than ten posts |
| `Posts.Listing` | src/bot.py:213-219 | at most ten lines; line k is post k numbered from 1 with its preview and status; listed lines plus the overflow count equal the number of posts |
| `Posts.ListLines` | src/bot.py:212-216 | the `for` loop builds exactly the listing |
| `Posts.PreviewMeaning` | src/bot.py:215 | content of at most 40 characters is shown whole; longer content shows its first 40 characters followed by `...` |
| `Bot.Initial` | src/bot.py:28-56 | a fresh bot has every feature off, no posts, the eight default templates and no away records |
| `Bot.OnToggle` | src/bot.py:158-183 | a toggle keeps the state invariant |
| `Bot.OnAddPost` | src/bot.py:185-201 | adding a post keeps the state invariant |
| `Bot.OnAddReply` | src/bot.py:223-235 | adding a template keeps the state invariant: the defaults stay first |
| `Bot.OnMessage` | src/bot.py:262-285 | handling a message keeps the state invariant |
| `Bot.OnPostJob` | src/bot.py:313-352 | the post job keeps the state invariant: a post marked sent gets its sending time |
| `Bot.OnPostCommand` | src/bot.py:288-309 | `/post` keeps the state invariant |
| `Bot.AutoBot.constructor` | src/bot.py:21-58 | the new bot is in the initial state, with the given owner and the three away messages |
| `Bot.AutoBot.ToggleAutoPost` | src/bot.py:158-165 | updates the fields and replies exactly as `OnToggle` for auto posting |
| `Bot.AutoBot.ToggleReplyGuy` | src/bot.py:167-174 | updates the fields and replies exactly as `OnToggle` for reply-guy mode |
| `Bot.AutoBot.ToggleAway` | src/bot.py:176-183 | updates the fields and replies exactly as `OnToggle` for away mode |
| `Bot.AutoBot.AddScheduledPost` | src/bot.py:185-201 | appends to `scheduledPosts` and replies exactly as `OnAddPost` |
| `Bot.AutoBot.AddReplyTemplate` | src/bot.py:223-235 | appends to `replyTemplates` and replies exactly as `OnAddReply` |
| `Bot.AutoBot.ListPosts` | src/bot.py:203-221 | sends exactly what `OnListPosts` describes and changes nothing |
| `Bot.AutoBot.StatusCommand` | src/bot.py:237-260 | reports the pending count, the number of notified senders and the template count, and changes nothing |
| `Bot.AutoBot.HandleMessage` | src/bot.py:262-285 | updates the away records and sends exactly as `OnMessage` |
| `Bot.AutoBot.AutoPostJob` | src/bot.py:313-352 | marks the chosen post and sends exactly as `OnPostJob` |
| `Bot.AutoBot.PostCommand` | src/bot.py:288-309 | checks the sender and for unsent posts, then runs `AutoPostJob`, exactly as `OnPostCommand` |
| `BotProperties.ToggleFlipsOnlyItsFeature` | src/bot.py:158-183 | a toggle by the owner flips its own flag only, reports the new value, and leaves the other flags, posts, templates and records alone |
| `BotProperties.ToggleTwiceRestores` | src/bot.py:163 | toggling the same feature twice restores the whole state |
| `BotProperties.NonOwnerCommandsChangeNothing` | src/bot.py:160-161 | toggles, `/add_post`, `/add_reply`, `/list_posts` and `/status` from a non-owner change nothing and send nothing; `/post` changes nothing and answers "unauthorized" |
| `BotProperties.AddPostAppendsOne` | src/bot.py:190-199 | with no words nothing changes; otherwise exactly one unsent post is appended with the words joined by single spaces, earlier posts are untouched and the pending count rises by one |
| `BotProperties.AddedPostKeepsWords` | src/bot.py:194 | the stored content splits back on spaces into the command's words |
| `BotProperties.AddReplyAppendsOne` | src/bot.py:228-233 | with no words nothing changes; otherwise exactly the joined words are appended as a template |
| `BotProperties.PostJobSendsOldestUnsent` | src/bot.py:328-349 | a successful job sends the lowest-index unsent post to the owner's chat and marks exactly it as sent at `now`; nothing else changes |
| `BotProperties.PostJobIgnoresAutoPostFlag` | src/bot.py:315-325 | the job behaves the same whether or not auto posting is enabled |
| `BotProperties.PostJobNoOp` | src/bot.py:319-332 | with no posts, no unsent post, or a failed send, the job changes and sends nothing |
| `BotProperties.PostJobKeepsHistory` | src/bot.py:344-352 | the job removes no post, rewrites no content and never turns a sent post back |
| `BotProperties.PostJobNeverResends` | src/bot.py:329-349 | after a successful job, the next job picks a later post or none, so no post is sent twice |
| `BotProperties.PostJobLowersPending` | src/bot.py:243 | a successful job lowers the `/status` pending count by one |
| `BotProperties.PostCommandRunsJob` | src/bot.py:296-309 | with something unsent, `/post` runs the job even when auto posting is off; it reports success even when the send failed |
| `BotProperties.PostCommandNothingToPost` | src/bot.py:296-300 | with nothing unsent, `/post` only says so |
| `BotProperties.OwnerMessagesIgnored` | src/bot.py:265-266 | the owner's own messages change nothing and send nothing |
| `BotProperties.AwayNoticeExactly` | src/bot.py:269-277 | an away notice is sent exactly when the sender is not the owner, away mode is on, the sender has no notice dated today and the send succeeds; the notice is one of the away messages; afterwards the sender's record is today and nothing else changed |
| `BotProperties.AwayAtMostOncePerDay` | src/bot.py:273-277 | after a delivered notice, a second message from the same sender on the same day gets no notice |
| `BotProperties.AwayAgainAnotherDay` | src/bot.py:274 | on a different day the same sender is notified again |
| `BotProperties.AutoReplyExactly` | src/bot.py:280-285 | a reply is sent exactly when the sender is not the owner, reply-guy mode is on, the draw is below the probability, and no failed away notice stopped the handler; the reply is one of the templates, of which there are always at least eight |
| `BotProperties.ReplyIndependentOfAway` | src/bot.py:268-285 | whether a reply fires does not depend on away mode when away notices are delivered |
| `BotProperties.ReplyGateExtremes` | src/bot.py:280 | probability 0 never replies; probability 1 replies exactly when reply-guy mode is on |
| `BotProperties.AwayCountIsDistinctSenders` | src/bot.py:253 | the status figure rises by one only when a sender gets their first notice ever |
| `BotProperties.ListPostsShowsFirstTen` | src/bot.py:208-219 | `/list_posts` shows the first ten posts in insertion order with numbers, previews and status, plus the count of the rest |
| `BotProperties.QueueScenario` | src/bot.py:185-221 | add "A", "B", "C", then `/post`: "A" is sent, and the listing shows A sent and B, C pending, with no overflow |
| `BotRuns.Apply` | src/bot.py:158-352 | every command and event keeps the state invariant |
| `BotRuns.ApplyKeepsHistory` | src/bot.py:195-199 | no event removes, reorders or rewrites a post, un-sends a post, removes a template or removes an away record |
| `BotRuns.ApplyAwayRecords` | src/bot.py:274-277 | an away record changes only when a message got a notice, and then to that message's date; a notice is sent only when one is due |
| `BotRuns.NoticesBound` | src/bot.py:269-277 | from a state whose records fit the run, a run whose dates never go back sends at most one notice per sender and date, and none for a date the sender is already recorded with |
| `BotRuns.AwayNoticeOncePerSenderPerDay` | src/bot.py:273-277 | from a fresh bot, any interleaving of commands, ticks and messages whose dates never go back sends each sender at most one away notice per date |
| `BotRuns.ScheduledJobPostsWhileDisabled` | src/bot.py:315-325 | as written, a scheduled run sends and marks a pending post even though auto posting is disabled |
| `BotRuns.OnScheduledTick` | src/bot.py:316-318 | the corrected scheduled tick does nothing while auto posting is disabled, and runs the post job otherwise |
| `BotRuns.QuietEventSendsNoPost` | src/bot.py:313-325 | with auto posting off, any event other than `/post` or the auto-post toggle leaves the switch off and sends no post, under the corrected tick |
| `BotRuns.DisabledRunSendsNoPost` | src/bot.py:316-318 | under the corrected tick, a whole run starting with auto posting off, with no `/post` and no auto-post toggle, leaves the switch off; every post sent at the end was already sent, unchanged, at the start |

## Left out

- Telegram plumbing is not modelled: building the `Bot` and `Application`, registering handlers, and the actual `reply_text` and `send_message` calls. Sends are the returned `Message` values.
- The bodies of the welcome, help, config and status texts are not modelled, nor is their Markdown. `/start`, `/help` and `/config` are text templates and are not modelled. `/status` keeps only the figures it reports.
- `run_scheduler` and `run` are not modelled: the background thread, the `schedule` library and the `time.sleep` loop. As written, the timer's lambda calls `asyncio.create_task` in a thread with no running event loop (src/bot.py:359-361, 371-373). That call raises, so the timer never reaches `auto_post_job`. The `BotRuns.ScheduledTick` event models the timer run the code evidently intends.
- BotRuns.Apply: a `ScheduledTick` event applies the corrected tick `BotRuns.OnScheduledTick`, which posts only while auto posting is on, not `auto_post_job` as written. Every run lemma therefore speaks of the corrected scheduler. The as-written job is `Bot.OnPostJob`: it is reachable through `/post`, and its own lemmas hold whatever the switch.
- Concurrency is not modelled. Handlers, the awaited sleep before a reply and the scheduler thread are treated as if they run one at a time, so races on the shared state are not captured.
- The `asyncio.sleep(random.uniform(1, 5))` reply delay is not modelled, and neither is a failed send of the auto reply. Neither changes any state.
- Clock reads and ISO formatting are not modelled. Dates and timestamps are opaque strings supplied by the caller.
- The percentage display `int(reply_probability * 100)` is floating-point formatting and is not modelled. The probability is an exact `real`, so a NaN probability (which fails every comparison in Python) cannot be expressed.
- `Config.__init__` is not modelled: `load_dotenv`, `os.getenv`, and the `int()`/`float()` parsing of the environment. `to_dict` is a plain field copy and is not modelled either.
- main.py (entry-point checks, logging and exit) is not part of this model, and src/utils/logger.py (a logging wrapper) is not part of this model.
- `Strings.Lower` lower-cases ASCII letters only, where Python's `str.lower()` covers all of Unicode. This is exact for comparisons with `true` and `production`: no non-ASCII character lower-cases to one of those words' letters.

## Findings

| source | as written | input that shows it | evidently intended | confidence | as-written member | corrected member |
|---|---|---|---|---|---|---|
| src/bot.py:313-325 | `auto_post_job` never reads `auto_post_enabled`: it returns early only when the post list is empty, so a timer-driven call posts whatever the switch says (the scheduler at src/bot.py:359-361 adds no guard) | `auto_post_job()` called with auto posting disabled and one unsent post sends that post and marks it sent. As written, the scheduler thread's `asyncio.create_task` call raises before reaching the job, so this shows once that call is fixed | the comment at line 316 says that when auto posting is disabled the job should not run on the timer; only `/post` should bypass the switch | not executed; medium | `BotRuns.ScheduledJobPostsWhileDisabled` | `BotRuns.OnScheduledTick` |
