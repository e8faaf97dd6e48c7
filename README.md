# Astro bot: a Dafny model

This project models the core of a Telegram horoscope bot (`astro.py`). The bot
walks each user through a conversation: choose a zodiac sign, either from a
keyboard or by giving a birth date, then a period, then a category. It enforces
a daily quota of two free horoscopes, and past that quota it asks for payment,
which a payment check confirms.

The model has two layers.

- **Pure modules.** Each one is a set of functions with lemmas about them:
  - `Calendar`: the proleptic Gregorian calendar that `datetime(year, month, day)` checks, years 1 to 9999;
  - `Zodiac`: `get_zodiac_sign` and the twelve sign labels;
  - `BirthDate`: the pattern `^(\d{1,2})\.(\d{1,2})\.(\d{4})$`, `int()` of its groups, and the calendar check;
  - `Payload`: Python's `str.split`, and taking the value out of a `date_…`/`type_…` callback payload;
  - `Horoscope`: `generate_horoscope` and its table of texts;
  - `UserStore`: the users collection, including MongoDB's `update_one(…, {"$set": …}, upsert=True)` as a merge-upsert;
  - `Quota`: the daily quota decision of `process_chosen_type` and the reset made by `check_payment`;
  - `Conversation`: the states, the sessions, the events, the replies, and how aiogram's dispatcher routes an event to a handler.
- **An imperative class.** `AstroBot.Bot` holds two maps that its handler methods update in place:
  - the session storage: state plus scratch data, keyed by user id;
  - the users collection, keyed by `user_id`.

  There is one method per handler. `Handle` is the dispatcher: it takes one event of one user and runs the handler `Route` picks.

  The class invariant `Valid()` says:
  - the two payment states no handler sets are never entered;
  - a stored sign is always one of the twelve labels;
  - a state is entered only with the data it needs;
  - any user with a conversation in progress has a record, and the record's counter stays within 0..2.

  `Scenario` is a client of these contracts. It follows one user through a day:
  - two free horoscopes;
  - a third request that leads to payment;
  - a confirmed payment.

The current date (`datetime.now().date()`) and the payment gateway's answer
(`check_payment_status`) are parameters of the handlers that use them.

A session with nothing stored is idle and empty, as aiogram's in-memory
storage answers for an unknown key (`AstroBot.Bot.SessionOf`).

Points where the code does something other than its own comments and messages
suggest, or something easy to miss. The model follows the code:

- **`start_over` leaves the user idle.** The handler (astro.py:372-379) calls `state.clear()` and then asks the user to choose a sign (astro.py:376). No state is set, so a sign typed next is not handled. Only `/start` moves an idle user on, because `check_payment` is accepted only while waiting for payment (astro.py:352).
- **A payment restores the whole quota.** The handler sets the counter to 0 (astro.py:360), which brings back both free horoscopes of the day. The comment and the confirmation message (astro.py:359, 362) speak of one more.
- **The chosen sign is not stored in the record.** It lives in the session only (astro.py:245, 287).
- **Payload values are not checked.** The value after `date_`/`type_` is taken with `split("_")[1]` (astro.py:296, 307) and is not validated. An unknown period or category yields the "not available yet" text, and a payload such as `date_x_y` stores `x`.
- **Day and month ranges.** A day above 31 or a month above 12 passes the pattern (astro.py:256). It is refused later as an impossible calendar date (astro.py:263-267), not as a format error.
- **`/start` keeps the session data.** Any stored sign or period survives, since `set_state` (astro.py:225) does not touch the data.
- **The two database writes are not atomic.** A new day leads to two separate upserts: the reset, then the delivery (astro.py:322, 336-339). `UserStore.UpsertTwice` shows that together they equal the single write that `Quota.Check` describes.
- **The date cannot be written as coded.** Both writes fail with the actual driver; see "## Findings". The handlers use the intended behaviour.

## Model

| member | source | states |
|---|---|---|
| `Calendar.DaysInMonth` | astro.py:264 | a month has 28 to 31 days, and fewer than 30 exactly for February |
| `Calendar.IsValidDate` | astro.py:263-267 | a date `datetime` accepts has a year in 1..9999, a month in 1..12 and a day in 1..31, and every day 1..28 of every month of those years is accepted |
| `Calendar.LeapDay` | astro.py:264 | 29 February is a real date exactly in Gregorian leap years (every 4th year, except centuries not divisible by 400) |
| `Calendar.YearLength` | astro.py:264 | the months add up to 366 days in a leap year and 365 otherwise |
| `Calendar.BeforeIsStrictTotalOrder` | astro.py:319 | the date comparison `last_horoscope_date < today` is irreflexive, asymmetric, transitive and total |
| `Zodiac.BranchesPartition` | astro.py:271-282 | for every month 1..12 and every day, exactly one of the twelve conditions holds, and it is the one of the reference table (sign starting in the month, cutoff day) |
| `Zodiac.ZodiacSign` | astro.py:270-283 | the result is the fallback text or the label of a sign whose condition holds for the day and month, and a month outside 1..12 gives the fallback |
| `Zodiac.ZodiacSignIsReference` | astro.py:270-283 | the if-chain returns the label of the reference sign for every month 1..12, whatever the day |
| `Zodiac.ZodiacSignOutOfRange` | astro.py:283 | a month outside 1..12 gives "Неизвестный знак" |
| `Zodiac.ZodiacSignTotal` | astro.py:270-285 | the unknown-sign result occurs exactly for months outside 1..12; otherwise the result is one of the twelve labels `process_chosen_sign` accepts |
| `Zodiac.BoundaryExamples` | astro.py:271-282 | 21.3 and 19.4 are Aries, 20.4 is Taurus, 20.3 is Pisces, 1.1 and 31.12 are Capricorn |
| `Zodiac.LabelSymbol` | astro.py:229-232 | each label starts with its own zodiac symbol (U+2648 onwards, in order) and sits at its position in the list of twelve |
| `Zodiac.LabelsDistinct` | astro.py:229-235 | different signs have different labels; every label is in the list, and none is the fallback text or the birth-date button |
| `BirthDate.LeadingDigits` | astro.py:256 | the greedy `\d{1,2}` takes only digits, at most the maximum, and stops only at the maximum, the end, or a non-digit |
| `BirthDate.DigitsValue` | astro.py:261 | `int()` of k decimal digits is below 10^k |
| `BirthDate.MatchMonthYear` | astro.py:256 | a match of the tail of the pattern yields a 1–2 digit month and a 4-digit year that rebuild the text |
| `BirthDate.MatchDate` | astro.py:256-257 | a match yields groups of the accepted shape that rebuild exactly the whole text (anchored at both ends) |
| `BirthDate.MatchDateComplete` | astro.py:256 | every text of the accepted shape matches, with its own groups, so a text matches exactly when it has that shape |
| `BirthDate.ParseBirthDate` | astro.py:256-267 | a success is a real calendar date; the format error occurs exactly when the pattern does not match |
| `BirthDate.ParseWellFormed` | astro.py:261-267 | for a matching text, the four-digit year never exceeds 9999, and the result is the date exactly when `datetime` accepts it, otherwise the calendar error |
| `BirthDate.ParseExampleValid` | astro.py:256-264 | "01.01.2000" gives 1 January 2000 |
| `BirthDate.ParseExampleLeapDay` | astro.py:256-264 | "29.02.2000" gives 29 February 2000 |
| `BirthDate.ParseExampleNoSuchDay` | astro.py:263-267 | "30.02.2000" is a calendar error |
| `BirthDate.ParseExampleCenturyYear` | astro.py:263-267 | "29.02.1900" is a calendar error (1900 is not a leap year) |
| `BirthDate.ParseExampleYearZero` | astro.py:263-267 | "01.01.0000" matches but is a calendar error (year 0 does not exist) |
| `BirthDate.ParseExampleSlashes` | astro.py:256-259 | "1/1/2000" is a format error |
| `Payload.Split` | astro.py:296 | `split` gives at least one piece, two or more exactly when the separator occurs, and no piece contains it |
| `Payload.JoinSplit` | astro.py:296 | joining the pieces with the separator gives the text back |
| `Payload.SplitJoin` | astro.py:296 | splitting joined separator-free pieces gives the pieces back |
| `Payload.SplitNoSeparator` | astro.py:296 | a text without the separator is a single piece |
| `Payload.SplitAfterPiece` | astro.py:296 | a separator-free piece followed by the separator is the first piece, and the rest splits on its own |
| `Payload.SecondFieldOfPayload` | astro.py:307 | `split("_")[1]` of `<prefix>_<value>`, with or without further `_` fields, is the value |
| `Payload.SecondField` | astro.py:296 | the value taken from a payload holding `_` is one `_`-free piece of it |
| `Horoscope.Lookup` | astro.py:184 | the nested `.get` finds a text exactly when the period is one of today/tomorrow/week and the category one of the four the buttons offer, and then it is that table entry |
| `Horoscope.TableShape` | astro.py:164-183 | the table has the periods today, tomorrow and week, each with the four categories general, love, business and health |
| `Horoscope.GenerateHoroscope` | astro.py:160-184 | the text is the heading built from sign, period and category (a missing value shows as `None`), followed by the table entry for an offered period and category, and by "Гороскоп пока недоступен." in every other case |
| `UserStore.Upsert` | astro.py:101-102 | the upsert adds the key if missing, leaves every other user's record as it was, and merges the `$set` fields into the existing record or into a fresh one carrying the user id |
| `UserStore.GetAfterUpsert` | astro.py:98-102 | reading after an upsert: `find_one` gives the written user the merged (or newly inserted) document, and every other user the document it had before |
| `UserStore.Merge` | astro.py:102 | `$set` on an existing document: the fields the patch mentions take its values, the others keep theirs, and an empty patch changes nothing |
| `UserStore.Inserted` | astro.py:102 | the document an upsert inserts carries the filter's `user_id` unless the patch sets one, and otherwise only the patch's fields |
| `UserStore.UpsertAsWritten` | astro.py:101-102 | as the driver runs the write: it succeeds exactly when the `$set` holds no date, and then it is the merge-upsert |
| `UserStore.UpsertFields` | astro.py:102 | field by field, the record after the upsert takes the patch's value where the patch has one, and otherwise keeps the old value (absent on insert) |
| `UserStore.UpsertTwice` | astro.py:322-339 | two upserts of one user equal one upsert of the combined fields, the later write winning |
| `UserStore.UpsertIdempotent` | astro.py:102 | repeating an upsert changes nothing more |
| `Quota.Effective` | astro.py:314-321 | the counter the handler compares is 0 on a new day, the stored counter (0 when absent) on the same day or without a date, and within 0..2 for a record whose counter is |
| `Quota.Check` | astro.py:313-339 | payment is asked for exactly when the effective count is at least 2, leaving the record as it was; otherwise the horoscope is given and the record ends with the effective count plus 1 and today's date |
| `Quota.CheckKeepsRange` | astro.py:313-339 | a selection keeps the counter present and within 0..2, keeps the user id, and stamps today's date on delivery |
| `Quota.LimitReachedExactly` | astro.py:324-331 | payment is asked for exactly when the effective count is at least 2, and then the record is untouched and not stale |
| `Quota.DayBoundaryReset` | astro.py:319-339 | on a new day the old counter is ignored: the horoscope is given and the record ends at count 1 with today's date |
| `Quota.NoDateUsesCounter` | astro.py:314-339 | without a stored date the stored counter (default 0) decides: below 2 the horoscope is given and the record ends with that counter plus 1 and today's date |
| `Quota.ThirdSelectionPays` | astro.py:324 | after two deliveries in one day, the third selection that day asks for payment |
| `Quota.AtMostQuotaPerDay` | astro.py:324-339 | any number of selections on one day delivers at most the remaining free quota (2 minus the effective count) |
| `Quota.Paid` | astro.py:360 | a confirmed payment sets the counter to 0 and changes nothing else in the record |
| `Quota.PaymentRestoresFullQuota` | astro.py:358-365 | after a payment the effective count is 0, and the next selections that day deliver exactly two horoscopes, not one |
| `Quota.SelectAsWritten` | astro.py:313-339 | the handler as coded: a stale record's reset write raises; at the limit the record is returned unchanged; otherwise the delivery write raises |
| `Quota.AsWrittenNeverDelivers` | astro.py:322-339 | as the driver runs the code, every write holding the date raises: wherever the quota decision gives a horoscope, the handler fails instead, and it completes only by asking for payment |
| `Quota.FreshUserAsWritten` | astro.py:313-339 | for the record `/start` creates (astro.py:218), the first selection gives a horoscope and ends at count 1 under the quota decision, while the code as written raises |
| `Conversation.Route` | astro.py:213-379 | each handler is chosen only in its state and with its filter: text for the message handlers, the `date_`/`type_` prefix or the exact payload for the callbacks |
| `Conversation.IsStartCommand` | astro.py:213 | a text the start filter accepts has the first word `/start`, or `/start` followed by `@` |
| `Conversation.CallbackRouting` | astro.py:294-373 | for a button press, each callback handler runs exactly when its own state and payload filter hold, so the callback filters never overlap |
| `Conversation.MessageRouting` | astro.py:213-254 | for a text, `/start` wins in every state; otherwise the sign step and the birth-date step run exactly in their states, and nothing else handles it |
| `Conversation.StartCommandWithArguments` | astro.py:213 | `/start` after leading whitespace, alone or followed by any character `str.split()` treats as whitespace (the ASCII separators U+001C–U+001F and the Unicode spaces included) and arguments, is the start command |
| `Conversation.StartThenUnitSeparator` | astro.py:213 | `/start` followed by U+001F, which `str.split()` treats as whitespace, is the start command |
| `Conversation.NotStartCommand` | astro.py:213 | a longer word such as `/starting` is not the start command |
| `AstroBot.Bot.constructor` | astro.py:67-80 | a starting bot has empty in-memory session storage and the users collection as earlier runs left it (any well-formed records), and is consistent |
| `AstroBot.Bot.UpdateUserData` | astro.py:101-102 | the users collection becomes its merge-upsert, and the sessions are untouched |
| `AstroBot.Bot.CmdStart` | astro.py:213-225 | `{user_id, daily_horoscopes_given: 0}` is created only for an unknown user, and an existing record is never touched; the sign keyboard is sent and the state becomes "choosing sign", the session data kept |
| `AstroBot.Bot.ProcessChosenSign` | astro.py:227-250 | the birth-date button asks for a date and nothing is stored; a listed sign is stored and the period comes next; any other text is refused and nothing changes; the record is untouched |
| `AstroBot.Bot.StoreSign` | astro.py:245-250 | the label is stored in the session, the period keyboard is sent, and the state becomes "choosing date" |
| `AstroBot.Bot.ProcessBirthDate` | astro.py:253-292 | a format error and a calendar error each get their own hint and change nothing; a real date stores the sign of its day and month, always one of the twelve, and the period comes next |
| `AstroBot.Bot.ProcessChosenDate` | astro.py:294-303 | the second `_` field of the payload, unchecked, is stored as the period, and the category comes next |
| `AstroBot.Bot.ProcessChosenType` | astro.py:305-349 | the record always exists here; the final record is exactly the one the quota decision gives; on the limit the payment options are sent and the state becomes "waiting for payment"; otherwise the horoscope for the session's sign and period is sent and the session is cleared |
| `AstroBot.Bot.CheckPayment` | astro.py:352-370 | on the gateway's success the counter is reset to 0, the date is kept, and the sign comes next; on failure nothing changes |
| `AstroBot.Bot.StartOver` | astro.py:372-379 | in any state, the session is cleared to idle and the record is untouched |
| `AstroBot.Bot.Handle` | astro.py:213-379 | the invariant holds after every event; an event no handler accepts changes nothing and gets no answer; an event touches only its own user's session and record; records are never removed |
| `Scenario.Begin` | astro.py:213-250 | `/start` and a keyboard sign leave the user's record as `/start` made it, with the period next |
| `Scenario.Finish` | astro.py:294-346 | period and category leave the record that the quota decision gives; on the limit the state is "waiting for payment", otherwise the session is cleared |
| `Scenario.OneRound` | astro.py:213-346 | one full round from `/start` ends with the record the quota decision gives for the record `/start` left |
| `Scenario.QuotaDay` | astro.py:305-365 | for a new user on one day: the first two rounds give horoscopes, the third asks for payment, and the confirmed payment leaves the record with counter 0 and today's date |

## Left out

- The Telegram transport: the webhook and long-polling set-up, `on_startup`, `on_shutdown`, `main`, `api/index.py` and `api/cron.py`. They are wiring, not conversation logic.
- Environment loading and the startup checks on `BOT_TOKEN` and `MONGO_URI` (`load_dotenv`, `os.getenv`). These are process configuration.
- MongoDB connection handling (`init_mongodb`, the unique index) and database failures. The store is a map. Each write either happens or the event is left out.
- The failing BSON encoding of `last_horoscope_date` is not part of the handlers. The bot's methods store a calendar date, which is the intended behaviour. The code as written is modelled on its own by `Quota.SelectAsWritten` (see "## Findings").
- `check_payment_status` and its five-second wait. They are out of scope: its boolean answer is a parameter.
- `show_ads`. It only logs and sends no reply.
- Concurrency. Each event runs to completion before the next one, and the `asyncio` scheduling of handlers is not modelled.
- Reply texts, keyboard layouts and payment URLs, including the order id built from the clock and the TON amount. A reply is a tag naming which message is sent. The interim "checking payment" edit and `callback.answer()` are not modelled.
- Message captions. For a photo with a caption, the start filter also reads the caption. Events here carry only a text.
- Unicode decimal digits matched by `\d`, and `$` matching before a trailing newline. The model accepts ASCII digits only and requires the exact end of text.
- `Conversation.IsStartCommand`: the bot-name mention is compared after ASCII lower-casing, not Python's `str.lower()`. A mention spelt with a non-ASCII character that lower-cases to an ASCII letter, such as U+212A KELVIN SIGN for `k`, is accepted by the source and refused by the model.
- Session keys. aiogram's default storage keys a session by chat and user, but the model keys sessions by user only, like the records. The model therefore does not capture one user holding separate conversations in two chats.
- The `AttributeError` raised by `process_chosen_type` on a missing record. `Valid()` makes it unreachable: every session in progress has a record. `AstroBot.Bot.ProcessChosenType` proves the record exists.
- `AstroBot.Bot.Handle`: its contract states the invariant, locality and the unhandled case, not the effect of each handler. The effects are the contracts of the handler methods it calls.
- `Scenario.OneRound`: on delivery it states only that a horoscope message is sent, not its text. The text is stated by `AstroBot.Bot.ProcessChosenType`.
- `get_main_keyboard`, `get_date_keyboard`, `get_horoscope_type_keyboard` and `get_main_menu_keyboard` are not modelled. Their labels and payloads appear only as the constants and prefixes the handlers compare against.

## Findings

| source | as written | input that shows it | evidently intended | confidence | as-written member | corrected member |
|---|---|---|---|---|---|---|
| astro.py:317-339 | `today` is a `datetime.date`. Both `update_user_data` calls that set `last_horoscope_date` pass it to the MongoDB driver, which refuses a `datetime.date` (BSON has no date-only type) with `InvalidDocument`. `process_chosen_type` stops at the write, before the horoscope is sent or the session cleared. | a user just registered by `/start` (record `{user_id, daily_horoscopes_given: 0}`) presses any category: the delivery write at astro.py:336 raises | the counter goes up, today's date is stored, and the horoscope is sent. The date must be stored and compared in one type, since a stored `datetime` reads back as a `datetime`, which Python refuses to order against the `date` of astro.py:319 | high, not executed | `Quota.SelectAsWritten`, `Quota.AsWrittenNeverDelivers` | `Quota.Check` |
