# EarnQuest bot — a Dafny model of its decision logic

`bot.py` is a Telegram bot (`EarnQuestBot`) for the EarnQuest earning site.
In groups it moderates messages and answers questions. In private chats it
runs login and registration conversations. It also posts scheduled posts
to groups and reports events to a backend. This project models the parts of
the bot that decide something, and proves what they do:

- **Moderation** (`Moderation`, `RateWindow`, `WarningLedger`, `GroupBot`).
  The checks run in a fixed order: the chat kind, the sender's role, the
  link check, the per-user rate window and the forward check. The rate
  window keeps the timestamps whose `timedelta.seconds` age is under 60.
  The warning ledger bans on the third warning. `GroupBot.Bot` is the bot
  object. Its fields are `message_counts`, `warned_users`, `mod_settings`
  and `user_sessions`, and its methods are proved equal to the value-level
  specification `Moderation.Decide`.
- **Answers** (`Responder`, `Templates`). An unaddressed group message is
  answered from the first knowledge-base key it contains, and only when it
  asks a question. A message that addresses the bot is answered by the
  keyword scoring loop of `intelligent_response`. Answers are filled in
  with a model of `str.format`.
- **Greetings** (`Welcome`): the welcome for new members and the rules,
  both filled in with `str.replace`.
- **Scheduled posts** (`Broadcast`). Each target gets one send attempt and
  one event. The post is then marked executed once. Nothing runs unless
  the backend answered 200.
- **Backend plumbing** (`Api`, `Reporting`, `Settings`): the URL and
  headers of `api_request`, the session lookup, the event payload, and the
  settings merge.
- **Conversations** (`Conversation`). These are the login and
  registration steps: the email, user name and password checks, and
  `/cancel`.

Bot API calls, HTTP requests and the clock are parameters or oracles:
- timestamps are whole seconds;
- a send succeeds when a `seq<bool>` says so;
- the backend's answer is a datatype value;
- Bot API actions are returned as effect lists.

A failed role lookup does not skip moderation. The `except: pass` at
bot.py:262-268 falls through, so the sender is moderated like an
ordinary member (`Moderation.FailedLookupIsModerated`).

## Model

| member | source | states |
|---|---|---|
| Text.ContainsIff | bot.py:453 | Python's `p in s` holds exactly when `p` occurs at some position of `s` |
| Text.Strip | bot.py:581 | `str.strip()` removes whitespace, and only whitespace, from both ends; the ASCII whitespace is space, `\t`, `\n`, `\v`, `\f`, `\r` and the separators 0x1C-0x1F |
| Text.LStrip | bot.py:111 | `lstrip(c)` removes a prefix made only of `c`, and what remains does not start with `c` |
| Text.ReplaceAbsent | bot.py:160 | `str.replace` leaves a string without the pattern unchanged |
| Text.ReplaceFirst | bot.py:411-412 | when no occurrence starts before a given one, `str.replace` substitutes that one, keeps the text before it verbatim and resumes after it |
| Text.ReplaceKeepsPrefixText | bot.py:160 | text that occurs before the first occurrence of the pattern still occurs after `str.replace` |
| Templates.FormatSource | bot.py:456 | `str.format(website=…, email=…)` on a template's text gives exactly the rendered template, with no error |
| Templates.RenderResolvesPlaceholders | bot.py:495 | a rendered well-formed template contains no `{` or `}` when the filled-in values contain none |
| Settings.MergeEmpty | bot.py:206 | `dict.update` with an empty object changes nothing |
| Settings.MergeIdempotent | bot.py:206 | applying the same fetched settings twice equals applying them once |
| Settings.MergeTwice | bot.py:206 | two successive updates equal one update by their overlay, in which the later keys win |
| GroupBot.Bot.SyncSettings | bot.py:200-209 | the settings are merged only when the backend answered 200, and are otherwise unchanged |
| RateWindow.Prune | bot.py:338-342 | the cleaned window holds exactly the stored timestamps whose age passes the test, and is no longer than the stored one |
| RateWindow.PruneKeepsOrder | bot.py:338-342 | the cleaned window is the stored one with entries deleted, the rest in their stored order |
| RateWindow.PruneKeepsCopies | bot.py:338-342 | each kept timestamp appears in the cleaned window as often as it was stored, and a dropped one not at all |
| RateWindow.Record | bot.py:338-344 | the new window is the cleaned window followed by `now`; it grows by at most one and everything before `now` is a kept old entry |
| RateWindow.AgeWithinDay | bot.py:341 | for ages under one day `.seconds` is the true age |
| RateWindow.AgeNextDay | bot.py:341 | for ages between one and two days `.seconds` is the age minus 86400 |
| RateWindow.PruneKeepsAll | bot.py:338-342 | when every entry passes the test, cleaning changes nothing |
| RateWindow.PruneDropsAll | bot.py:338-342 | when no entry passes the test, cleaning empties the window |
| RateWindow.ReplayMutuallyKept | bot.py:330-346 | messages that are pairwise within the window accumulate in full |
| RateWindow.BurstWithinMinute | bot.py:330-346 | sorted messages spanning under a minute all stay in the window |
| RateWindow.BurstOverLimitIsSpam | bot.py:346 | `limit + 1` messages within a minute exceed the limit, so the last one is spam |
| RateWindow.SpacedMessagesStaySingle | bot.py:338-344 | when no earlier message is kept at a later one, the window holds only the last message |
| RateWindow.SpacedWithinDayStaySingle | bot.py:341 | messages at least a minute apart, and less than a day apart, leave a window of one |
| RateWindow.SpacedMessagesNeverSpam | bot.py:341 | with the age measured as `total_seconds()`, messages at least a minute apart never exceed any limit of at least 1 |
| RateWindow.DayOldBurstIsSpam | bot.py:341 | as written, five messages followed by one a day and four seconds later leave a window of six, which exceeds the default limit |
| RateWindow.DayOldBurstIsDropped | bot.py:341 | with `total_seconds()` the same history leaves a window of one |
| GroupBot.Bot.CheckSpam | bot.py:330-346 | the sender's window becomes `Record` of the old one, and spam holds exactly when its length exceeds `max_messages_per_minute` |
| WarningLedger.Warn | bot.py:348-380 | the count rises by exactly one from 0 when absent; at 3 or more the user is banned and removed, otherwise the count is stored; no other entry changes |
| WarningLedger.WarnKeepsBounded | bot.py:348-380 | stored counts stay in 1..2, and a warning bans exactly when the user already had 2 |
| WarningLedger.ThirdWarningBans | bot.py:348-380 | from no entry, the first two warnings count 1 and 2, the third bans with count 3, and the ledger is back to where it started |
| GroupBot.Bot.WarnUser | bot.py:348-380 | the ledger becomes `Warn`'s ledger, and the effects are the ban, notice and `user_banned` report, or only `user_warned` |
| Moderation.WarnEffects | bot.py:357-380 | a ban produces `BanUser` and `user_banned` and no `user_warned` report of any count; otherwise exactly one `user_warned` |
| Moderation.HasMentionIff | bot.py:274 | the `@\w+` scan finds a mention exactly when an `@` followed by a word character occurs |
| Moderation.MentionIsLink | bot.py:270-275 | any text mentioning a Telegram user name contains a link in the sense of the link check |
| Moderation.Decide | bot.py:252-328 | non-group chats and exempt senders pass with no state change; a blocked link removes the message with the link notice, report and warning, and records no timestamp; otherwise the window is recorded, the message is removed as spam with the 5-minute mute exactly when the window exceeds `max_messages_per_minute`, and else removed with only a deletion exactly when it is a forward and forwards are disallowed; only a link warns, only a third warning bans |
| Moderation.DecideKeepsValid | bot.py:252-380 | moderation keeps windows non-empty and warning counts below 3 |
| Moderation.FailedLookupIsModerated | bot.py:262-268 | a failed role lookup is treated as an ordinary member |
| Moderation.LinkCheckComesFirst | bot.py:272-297 | once a link is found, the forward flag and the rate windows make no difference |
| Moderation.ThirdLinkBans | bot.py:272-297 | three link messages give two warnings and then a ban with count 3, with the exact effect lists |
| Moderation.BurstIsMuted | bot.py:299-317 | when `max_messages_per_minute` earlier messages and the current one fall within a minute, the current one is deleted as spam and the sender muted for 5 minutes |
| GroupBot.Bot.Moderate | bot.py:252-328 | the deletion flag, effects and both ledgers equal `Decide` on the old state, and the ledgers stay valid |
| GroupBot.MentioningTheBotIsRemoved | bot.py:270-275 | while links are disallowed, a message naming the bot is deleted as a link before it can be answered |
| Responder.FirstKeyIn | bot.py:452-453 | the result is the first knowledge-base key, in insertion order, contained in the text, or none when no key is |
| Responder.Score | bot.py:488 | a topic's score is the number of positions in its phrase list whose phrase occurs in the text; it is at most the number of phrases, and zero exactly when none occurs |
| Responder.BestTopic | bot.py:487-491 | the loop settles on the first topic with the strictly highest positive score, or none when all scores are zero |
| Responder.BestIsPositive | bot.py:487-491 | a best topic exists exactly when some topic scores above zero |
| Responder.BestTopicUnique | bot.py:487-491 | the best topic is determined by the text |
| Responder.LookupKey | bot.py:493-494 | a lookup succeeds exactly when the key is in the knowledge base, and returns that key's template |
| Responder.KeywordTopicsAnswered | bot.py:472-485 | every topic of the keyword table has an answer in the knowledge base |
| Responder.SummaryIffNoKeyword | bot.py:493-507 | the capability summary is sent exactly when no keyword phrase of any topic occurs |
| Responder.FirstKeyWins | bot.py:452-459 | "what is the minimum to withdraw?" is answered with the `withdraw` entry, the first key in order |
| Responder.NoQuestionNoReply | bot.py:452-459 | a text containing none of `?`, `how`, `what`, `where` gets no reply, whichever keys it contains |
| Responder.BareKeyGetsNoReply | bot.py:452-459 | "faucet" contains the `faucet` key but asks no question, so nothing is sent |
| GroupBot.UnaddressedScan | bot.py:452-459 | the scan returns the answer for the first contained key when the text asks a question, and nothing otherwise |
| GroupBot.Bot.HandleGroupMessage | bot.py:435-462 | moderation runs first and a deleted message gets no reply; an unaddressed message gets the scan's reply; an addressed one gets the best topic's answer or the summary |
| Welcome.Humans | bot.py:406-408 | the members welcomed number at most the new members (which members, and in what order, is stated by `Welcome.HumansAreTheNonBots` and `Welcome.HumansAppend`) |
| Welcome.HumansAreTheNonBots | bot.py:406-408 | the members welcomed are exactly the new members that are not bots |
| Welcome.WelcomeTexts | bot.py:404-418 | one welcome per human member, in order, each built from the configured template |
| Welcome.WelcomeTextsAppend | bot.py:406-418 | one more member adds one welcome, unless the member is a bot |
| GroupBot.Bot.WelcomeNewMembers | bot.py:404-425 | the welcomes sent are exactly `WelcomeTexts` of the current welcome template |
| Welcome.DefaultWelcome | bot.py:404-412 | the default welcome renders to its lead text followed by the website URL, for any name |
| Welcome.DefaultRulesUnchanged | bot.py:427-431 | the default rules contain no placeholder and are posted as written |
| Api.Headers | bot.py:104-108 | the content type comes first; `Authorization` is present only for a truthy token, and `X-Bot-Key` only for a non-empty key; no header name repeats and there is no other header |
| Api.EndpointUrl | bot.py:111 | the URL is the base, one `/`, then the endpoint with only its leading slashes removed |
| Api.LeadingSlashesIgnored | bot.py:111 | any number of leading slashes on the endpoint gives the same URL |
| Api.ApiRequest | bot.py:102-121 | a request is built exactly for GET, POST and PATCH in any case, and otherwise the result is the error "Invalid method" |
| Api.VerbCaseInsensitive | bot.py:113-120 | "get", "Post" and "patch" are accepted and "DELETE" is refused |
| Reporting.Field | bot.py:224-231 | an optional field is present exactly when its value is truthy, and it carries no other key |
| Reporting.PayloadShape | bot.py:219-231 | the payload starts with `event_type` and `data`, keeps the keys in insertion order, and repeats none |
| Reporting.PayloadOptionalFields | bot.py:219-231 | `event_type` and `data` are always present, and each optional field is present exactly when its value is truthy |
| Reporting.EventHeadersAreApiHeaders | bot.py:233-236 | the event headers are the headers `api_request` would send without a token |
| Broadcast.NatDigitsRoundTrip | bot.py:182 | reading back the decimal digits of a number gives the number |
| Broadcast.NumericNameRoundTrip | bot.py:182 | a target written as the string form of a chat id is reported with that id |
| Broadcast.DoubleMinusSentIsLoggedAsError | bot.py:167-195 | a target such as "--5" passes the digit test but `int` rejects it, so a delivered post is logged as an `error` |
| Broadcast.DeliveryFor | bot.py:160-177 | the send goes to the target, as a photo of the image URL with the filled-in content as caption exactly when the image URL is truthy, and otherwise as the filled-in content as text |
| Broadcast.CaptionWithoutField | bot.py:160 | content without a `{website}` field is sent as written |
| Broadcast.CaptionFillsField | bot.py:160 | the first `{website}` field becomes the site URL, the text before it is kept and the rest is filled in the same way |
| Broadcast.EmailFieldKept | bot.py:160 | an `{email}` field in a post is not filled in: in content without `{website}` the sent text holds `{email}` exactly when the content does |
| Broadcast.EmailFieldBeforeWebsiteKept | bot.py:160 | an `{email}` field before the first `{website}` is still in the sent text |
| Reporting.KeyNamesDistinct | bot.py:219-231 | distinct payload keys have distinct JSON names |
| Broadcast.EventFor | bot.py:179-195 | a failed send, or a sent one whose target `int` rejects, gives an `error` event with the post id and target; otherwise `post_sent` with the post id, the post type, `bool(image_url)` and the chat id when the target is numeric |
| Broadcast.FanOutShape | bot.py:162-195 | target `i` gets one attempt and one event, at positions `2i` and `2i+1` |
| Broadcast.MarkedOnceAtEnd | bot.py:197-198 | mark-executed is called exactly once, as the last call, even with no targets |
| Broadcast.FailureIsolated | bot.py:162-195 | the calls for a target depend only on that target's own send outcome |
| Broadcast.ExecuteScheduledPost | bot.py:150-198 | the loop's call log is the per-target attempts and events in order, then one mark |
| Broadcast.DuePosts | bot.py:135-140 | a 200 answer runs every fetched post, and posts run only after a 200 answer |
| Broadcast.OneMarkPerPost | bot.py:142-143 | a run over `n` posts marks exactly `n` posts executed |
| Broadcast.FetchScheduledPosts | bot.py:133-148 | the log is every due post's log in order; it has one mark per post; it is empty unless the answer was 200 |
| Conversation.EmailIff | bot.py:583 | the email scan accepts exactly the strings `^[\w\.-]+@[\w\.-]+\.\w+$` matches |
| Conversation.EmailAccepted | bot.py:583 | "jo@x.io" is accepted |
| Conversation.EmailAcceptedDotted | bot.py:583 | "a.b@c-d.e.f" is accepted |
| Conversation.EmailNeedsAt | bot.py:583 | every text without `@` is rejected |
| Conversation.EmailNeedsDot | bot.py:583 | every text with no dot after an `@` is rejected |
| Conversation.EmailNeedsLocalPart | bot.py:583 | every text starting with `@` is rejected |
| Conversation.EmailNeedsDomain | bot.py:583 | every text with no dot at least two characters after an `@` is rejected |
| Conversation.EmailNeedsTopLevel | bot.py:583 | every text that does not end in a word character is rejected |
| Conversation.LoginCommand | bot.py:567-577 | `/login` starts the email step only in a private chat and keeps the scratch data |
| Conversation.ReceiveEmail | bot.py:579-589 | the stripped email is stored and the password step follows exactly when it passes the check; otherwise the step repeats with nothing stored |
| Conversation.ReceivePassword | bot.py:591-647 | the conversation always ends with the data cleared; a session is stored exactly on a 200 answer, with the returned token and the given email |
| GroupBot.Bot.ReceivePassword | bot.py:591-647 | the sessions change only on a 200 answer, and then `get_user_token` returns the token the backend sent |
| Conversation.RegisterCommand | bot.py:649-660 | `/register` starts the user name step only in a private chat |
| Conversation.ReceiveRegUsername | bot.py:662-670 | the stripped name is stored and the email step follows exactly when it is at least 3 word characters; otherwise the step repeats |
| Conversation.ReceiveRegEmail | bot.py:672-680 | the stripped email is stored and the password step follows exactly when it passes the check; otherwise the step repeats |
| Conversation.ReceiveRegPassword | bot.py:682-737 | a password under 6 characters repeats the step; missing stored data makes the handler fail with nothing changed; otherwise the conversation ends with the data cleared, and 201 means registered |
| Conversation.Cancel | bot.py:739-742 | `/cancel` always ends the conversation and clears the data |
| Conversation.Handle | bot.py:1288-1312 | a text outside a conversation changes nothing, and `/cancel` inside one always ends it |
| Conversation.ButtonsSkipChatCheck | bot.py:1174-1180 | the `start_login` and `start_register` buttons start the email and user name steps as the commands do in a private chat, wherever they are pressed |
| Conversation.RunKeepsConsistent | bot.py:579-737 | along any sequence of updates, every waiting step has the checked data the earlier steps stored |
| Conversation.ConsistentNeverFails | bot.py:694-700 | in a consistent conversation (one driven through a single conversation at a time) the registration request always finds its data, and a login stores a checked email |
| Conversation.LoginFlow | bot.py:567-647 | `/login`, a valid email and a password answered 200 end the conversation and store the session with that email |
| Conversation.StripNoSpace | bot.py:581-583 | a text that passes the email check is unchanged by stripping |

## Left out

- Bot API calls and HTTP requests are not modelled. They appear as effect values, send oracles or answer values. Their failures inside the `try` blocks are not modelled, so the effects are the calls attempted.
- The `asyncio.sleep` self-deletion of warnings and welcomes, the job-queue timings, webhook clearing and the retry loop are left out; they are timing and process plumbing.
- Concurrency between handlers and background jobs is left out. One update or one job is handled at a time.
- Regex classes `\w`, the `re.IGNORECASE` matching of the link check (`Moderation.HasLink`, bot.py:274-275) and `str.strip`/`lower`/`upper` are restricted to ASCII (for `strip`, all ASCII whitespace is covered). Python's versions also cover non-ASCII letters, digits and whitespace, and its case-insensitive match also folds characters such as the long s (U+017F) to `s`, so `httpſ://` counts as a link there and not in the model.
- `str.isdigit` is restricted to ASCII digits.
- `response.json()` decoding is left out. Backend answers are already-decoded values.
- Unknown keys in the fetched settings are left out. The settings are a record with the seven keys the bot defines.
- The balance, stats, leaderboard, task and support displays are not part of this model. They format floats and build keyboards.
- `Moderation.Decide`: the notice texts, the `user.username or user.first_name` handle, and the report payload of each moderation event are abstracted to effect names with their counts. The configured `mute_duration_minutes` is never read, as in the code.
- `Moderation.ModeratedText`: the caption path is modelled, but the only route into moderation is `handle_message`, registered for `filters.TEXT & ~filters.COMMAND` (bot.py:1359-1362). A caption-only message is never moderated, and neither is a group message that starts with a command.
- `Templates.Format`: only `{website}`, `{email}` and doubled braces are modelled. Other replacement fields end in an error, including the conversions, indexes and format specifications Python would accept; the bot's templates use none of them.
- `Responder.DefaultKnowledgeBase`: the templates are transcribed as pieces. `Templates.WellFormed` (no stray braces in the literal parts) is not proved for them, because the verifier cannot evaluate membership in literals that long. `Templates.FormatSource` therefore applies to them only under that assumption.
- `Broadcast.EventFor`: the event's description text and the exception message of a failed send are not modelled. The event carries the post id, the type, the image flag, the chat id, or the failed target.
- `Conversation.Handle`: the login and registration conversations are separate handlers and could run side by side. The model runs one conversation at a time and ignores a second entry command.
- `Conversation.ConsistentNeverFails` holds only for one conversation at a time. With both running, a login finished or cancelled while the registration waits for its password clears `user_data` (bot.py:646, bot.py:740), and the next password of 6 or more characters raises `KeyError` at bot.py:697. The model reaches that failure only as `HandlerFailed` of `Conversation.ReceiveRegPassword` on missing data, not through the interleaving.
- `WarningLedger.Warn` and `Moderation.Decide` assume that the ban notice is delivered. The notice at bot.py:358 is sent outside any `try`, and `warn_user_internal` is called outside one (bot.py:296). If that send fails, the handler stops before `del self.warned_users[user_id]` (bot.py:370): a count of 3 stays stored and no `user_banned` report is sent. `WarningLedger.WarnKeepsBounded` and `Moderation.DecideKeepsValid` do not cover that state.
- `Conversation.ReceivePassword`: the `login` and `registration` event reports and the status-message edits are left out. Only the reply kind is modelled.
- `Api.GetUserToken` is a direct map lookup and has no contract of its own. `GroupBot.Bot.ReceivePassword` states what it returns after a login.

## Findings

| source | as written | input that shows it | evidently intended | confidence | as-written member | corrected member |
|---|---|---|---|---|---|---|
| bot.py:341 | `(now - ts).seconds < 60` reads only the seconds part of the `timedelta`. That is the age modulo one day, so timestamps a whole number of days old count as recent | messages at t = 0, 1, 2, 3, 4 s, then one at 86404 s: the window holds 6 > 5 and the sender is muted for spam a day later | `(now - ts).total_seconds() < 60`: only the last minute counts | not executed | RateWindow.DayOldBurstIsSpam | RateWindow.SpacedMessagesNeverSpam |
