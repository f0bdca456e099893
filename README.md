# KUTIKULA booking bot — a verified model of its core

KUTIKULA is a Telegram bot for a beauty studio. It receives Telegram updates
through a webhook and answers commands. It turns a comma-separated message
into a booking in the YCLIENTS salon system. It formats booking, cancellation
and bonus notices from templates, builds inline keyboards, and keeps each
user's name and dialog state in a database.

This project models the deterministic core of the bot in Dafny and proves
properties of it. There is one module per source file:

- `Notifications` (notifications.py): `format_message` as a loop over the
  data pairs. Each pair replaces every occurrence of its `{key}`. The three
  notice templates and the data their builders pass are modelled too. A
  template is also described as a list of literal segments and holes. The
  main theorem says that substituting the keys in order fills exactly the
  holes whose keys the data has.
- `Keyboards` (keyboards.py): `inline_keyboard`, which lays buttons out in
  rows of `row`.
- `Storage` (storage.py, with the tables of db.py): a `Store` class holding
  the `users` and `dialog_state` tables as maps keyed by `tg_id`.
- `Webhook` (main.py): the update handler. It picks the message, strips the
  text, and dispatches on `/start`, `/services` and `/book`. Other text is
  parsed as a comma-separated booking request. The booking call is
  `create_yclients_booking`, with its credential guard, request and result.
- `Database` (db.py): the rewrite of the `DATABASE_URL` scheme.
- `YClientsApi` (yclients_api.py): shaping of the API replies. This covers
  the success guards, the service and master filters, slot flattening, and
  the two-step `create_booking`.
- `PyStr` holds the Python string operations these rely on:
  `startswith`, `in`, `replace` with and without a count, `strip`, and
  `split`/`join` on one character.
- `Wrappers` and `JsonValues` hold `Option` and decoded JSON values.

Network replies are parameters: the decoded YCLIENTS reply and the outcome of
the booking POST. The handler's result is the list of replies it queues and
the request it sends.

## Model

| member | source | states |
|---|---|---|
| PyStr.ReplaceAllAbsent | notifications.py:28 | `replace` with no count leaves a string unchanged when the placeholder's first character does not occur in it |
| PyStr.ReplaceAllSkips | notifications.py:28 | a prefix lacking the placeholder's first character passes through `replace` untouched, and the rest is replaced on its own |
| PyStr.ReplaceFirstAtStart | db.py:9 | `replace(old, new, 1)` on a string that starts with `old` swaps exactly that prefix |
| PyStr.StripTrimmed | main.py:49 | `strip` leaves a string alone exactly when neither end is whitespace |
| PyStr.StripKeepsPrefix | main.py:49-50 | stripping keeps a prefix whose first and last characters are not whitespace, so a command stays at the front |
| PyStr.Split | main.py:82 | `split` on a character gives at least one part; no part holds the separator; joining the parts gives back the text |
| PyStr.SplitJoin | main.py:82 | splitting a join of separator-free parts gives back exactly those parts |
| Notifications.Digits | notifications.py:28 | `str()` of a natural number: decimal digits that denote the number, with no leading zero |
| Notifications.FormatMessage | notifications.py:22-29 | the result is the ordered fold of replace-all over the data pairs; empty data, or a template without `{`, returns the template unchanged |
| Notifications.SubstitutedWithoutBraces | notifications.py:27-28 | a template containing no `{` comes back unchanged whatever the data holds |
| Notifications.OrderMatters | notifications.py:27-28 | keys are applied one after another: a value holding a later key's placeholder is replaced again, so swapping two pairs changes the result |
| Notifications.Lookup | notifications.py:27 | a key is found exactly when some pair of the data has it |
| Notifications.LookupFirst | notifications.py:27-28 | the first pair with a key decides its value |
| Notifications.Fill | notifications.py:27-28 | filling keeps the template's length and acts on each segment separately |
| Notifications.PlaceholderMismatch | notifications.py:28 | the placeholder of one brace-free key never matches at the placeholder of a different key |
| Notifications.ReplaceAtHole | notifications.py:28 | replacing a key over a placeholder removes it exactly when the placeholder is that key's own |
| Notifications.ReplaceOneKey | notifications.py:28 | one replace-all over a well-formed template fills every hole with that key, all occurrences and no other hole |
| Notifications.FillTwice | notifications.py:27-28 | filling with the first pair, then with the rest, is filling with all the data |
| Notifications.FillWellFormed | notifications.py:27-28 | filling with brace-free values keeps a template well formed |
| Notifications.LookupPlain | notifications.py:27-28 | a value found in brace-free data prints without `{` |
| Notifications.SubstitutedFills | notifications.py:27-28 | the substitution theorem: ordered replacement over a brace-free template fills exactly the holes the data covers and leaves the others verbatim |
| Notifications.FillNothing | notifications.py:27-29 | filling with no data leaves the template as it is |
| Notifications.CoveredLeavesNoBrace | notifications.py:27-28 | when the data covers every hole, the filled template has no `{` |
| Notifications.NoPlaceholderLeft | notifications.py:27-28 | with covering brace-free data, no placeholder of any key remains in the formatted text |
| Notifications.TemplatesWellFormed | notifications.py:33-51 | all three templates are well formed: no literal text holds `{` and no key holds a brace |
| Notifications.BuildersCoverTemplates | notifications.py:55-93 | each builder's keys cover every placeholder of its template |
| Notifications.MissingPriceShowsDash | notifications.py:65 | a booking without a price shows "—" in the price hole |
| Notifications.MissingBonusShowsFifty | notifications.py:92 | a booking without bonus points shows 50 in the bonus hole |
| Notifications.StrBraceFree | notifications.py:28 | `str()` of a number or of `None` holds no brace |
| Notifications.BuilderPlainData | notifications.py:55-93 | with records whose values print without `{`, each builder's data is brace-free |
| Notifications.NewBookingText | notifications.py:55-67 | the new-booking text is the ordered substitution; for plain records it is the filled template and holds no `{` |
| Notifications.CancelText | notifications.py:71-81 | the same for the cancellation text |
| Notifications.BonusText | notifications.py:85-94 | the same for the bonus text |
| Notifications.FilledText | notifications.py:27-28 | for covering brace-free data, the formatted text is the filled template and holds no `{` |
| Keyboards.ToButtons | keyboards.py:4 | one button per pair, in order, with that text and callback data |
| Keyboards.FlattenChunks | keyboards.py:3-4 | reading the rows in order gives back exactly the input |
| Keyboards.ChunkSizes | keyboards.py:3-4 | every row but the last has exactly `row` buttons, and the last has between 1 and `row` |
| Keyboards.ChunkCount | keyboards.py:3 | there are ceil(n / row) rows, so no rows for no buttons |
| Keyboards.ChunkPosition | keyboards.py:3-4 | the button at index k is in row k div row, at position k mod row |
| Keyboards.ChunkStep | keyboards.py:3-4 | the rows from offset i are the slice `[i:i+row]` followed by the rows from i + row |
| Keyboards.InlineKeyboard | keyboards.py:1-5 | a zero width fails and a negative width gives no rows; otherwise the markup is the chunked buttons, they flatten back to the input, and there are ceil(n / row) rows |
| Storage.Upserted | storage.py:5-15 | an unknown id gets one new row with the given name. A set name is never overwritten. A name changes exactly when the new one is non-empty and the stored one is empty or missing. Every other user is unchanged, and there is one row per id |
| Storage.UpsertIdempotent | storage.py:5-15 | upserting twice with the same arguments is upserting once |
| Storage.NamedUserIsStable | storage.py:13-14 | once a user has a non-empty name, no series of upserts changes that user |
| Storage.UpsertAllKeys | storage.py:7-11 | a series of upserts keeps every user, adds exactly the ids it names, and keeps one row per id |
| Storage.StateOf | storage.py:17-26 | an unknown id reads as ("idle", {}); otherwise the stored step, with the stored payload, or {} when the column is blank or does not decode |
| Storage.SetThenGet | storage.py:28-39 | after a write, reading gives back the step and payload written, and other ids read as before |
| Storage.Store.constructor | db.py:19-33 | both tables start empty |
| Storage.Store.UpsertUser | storage.py:5-15 | the users table becomes `Upserted` of the old one; one row per id is kept and dialog states are untouched |
| Storage.Store.GetState | storage.py:17-26 | returns `StateOf` of the table: ("idle", {}) for an unknown id |
| Storage.Store.SetState | storage.py:28-39 | creates or overwrites the id's row; reading it back gives what was written, and every other id reads as before |
| Storage.Store.ResetState | storage.py:41-42 | afterwards the id reads as ("idle", {}) |
| Webhook.CommandsExclusive | main.py:50-73 | no text starts with two of `/start`, `/services` and `/book` |
| Webhook.Dispatch | main.py:50-88 | each command exactly when its prefix starts the stripped text. Otherwise the text is a booking request exactly when it has at least four comma parts. The fields are the stripped parts 0-3, and the phone is part 4 or "" |
| Webhook.CommandsWin | main.py:50-82 | a message starting with a command is that command whatever follows, even with commas |
| Webhook.ParseBookingMessage | main.py:82-88 | a message joined from four or more comma-free fields is a booking request for the stripped fields, if its ends are not whitespace and it does not start with '/'; later parts are dropped |
| Webhook.ClassifySplit | main.py:82-88 | stripped text that starts with none of the three commands and splits into four or more parts is a booking request for those parts, even when it starts with another `/` word |
| Webhook.BookingBody | main.py:110-119 | the booking body holds the client's name and phone, the service name, and "date time" |
| Webhook.BookingCall | main.py:105-124 | no request without both a user token and a company id; otherwise a POST to `{base}/api/v1/companies/{id}/bookings` with the bearer token and the booking body |
| Webhook.BookingResult | main.py:104-133 | success exactly when a request went out and got status 200 or 201, with the decoded body. Otherwise it is an error record: missing credentials, the status with text and body, or the exception |
| Webhook.BookingReplies | main.py:89-98 | one reply to the user, a confirmation or a failure notice; on success a copy goes to the admin chat exactly when one is set |
| Webhook.HandleUpdate | main.py:45-102 | no reply and no request without a message. Otherwise `/start` gets the greeting, `/services` the service list and `/book` the booking prompt, and any other text the acknowledgement. A booking request gets `BookingReplies` for the YCLIENTS result, and the request goes out exactly when credentials are set. The first reply goes to the sender; the second, to the admin, only for a successful booking |
| Webhook.NoMessageNoReply | main.py:45-47 | an update with neither a message nor an edited message produces nothing |
| Webhook.MessageBeforeEdit | main.py:45 | a new message takes precedence over an edited one |
| Webhook.MissingCredentialsFail | main.py:89-106 | without credentials a booking request sends nothing to YCLIENTS and the user gets the failure reply |
| Webhook.SuccessConfirms | main.py:89-92 | a booking answered 200 or 201 is confirmed to the user with its service, date and time |
| Database.NormalizeUrl | db.py:7-11 | `postgres://` becomes `postgresql+asyncpg://` with the same suffix. So does `postgresql://` without "asyncpg". Every other URL, including the empty default, is unchanged |
| Database.AsyncSchemeIsFinal | db.py:8-11 | a rewritten URL starts with neither rewritten scheme |
| Database.NormalizeIdempotent | db.py:8-11 | rewriting twice is rewriting once |
| Database.NormalizeLeavesOthers | db.py:7-11 | the empty default and an asyncpg URL are left alone |
| YClientsApi.FilterMembers | yclients_api.py:85 | the filter keeps exactly the items that pass, each as often as it occurs |
| YClientsApi.FilterConcat | yclients_api.py:85 | the filter keeps reply order |
| YClientsApi.GetCategories | yclients_api.py:62-66 | the listed categories on success, otherwise [] |
| YClientsApi.ServicesByCategory | yclients_api.py:79-86 | on success, the services of that category in reply order, each as often as listed; otherwise [] |
| YClientsApi.MastersForService | yclients_api.py:99-105 | on success, the masters whose service list holds the service, in reply order, a master without a list holding none; otherwise [] |
| YClientsApi.DaySlots | yclients_api.py:125-126 | a day gives one "date time" per free time, in order |
| YClientsApi.SlotsConcat | yclients_api.py:123-127 | the slots of consecutive day lists follow one another |
| YClientsApi.TotalConcat | yclients_api.py:123-127 | the free-time counts of consecutive day lists add up |
| YClientsApi.SlotCount | yclients_api.py:123-127 | there is one slot per free time |
| YClientsApi.SlotsAround | yclients_api.py:124-126 | a day's slots sit between those of the days before and after it |
| YClientsApi.SlotAt | yclients_api.py:124-126 | day-major order: time j of day d follows all earlier days' times and reads "date time" |
| YClientsApi.GetFreeTimes | yclients_api.py:118-127 | on success, the flattened slots, as many as the free times; otherwise [] |
| YClientsApi.CreateClient | yclients_api.py:141-147 | the client record exactly when the reply is a success with a record |
| YClientsApi.RecordPayload | yclients_api.py:159-170 | the record body: master, one service, the client's id, name and phone, and the time |
| YClientsApi.CreateBooking | yclients_api.py:151-180 | without a client record nothing is booked and the result is None. Otherwise that client's record is posted. A failed reply gives None. A successful one returns its data when that is an object with an `id`, and raises otherwise, as logging the id does |

## Left out

- All network I/O is not modelled. This covers `send_telegram_message`, `send_message`, webhook registration in `startup_event`, `yclients_webhook` and every HTTP call. Replies to HTTP calls are parameters.
- YCLIENTS authentication and the cached user token (yclients_api.py:13-49), and the URLs of the GET endpoints, are not modelled.
- SQLAlchemy engines, sessions and `init_db` are not modelled. The tables are maps.
- The surrogate `id`, `created_at` and `updated_at` columns and the column length limits are not modelled.
- JSON encoding and decoding are taken as an exact round trip. A stored payload that decodes to something other than an object is not modelled, since `set_state` only writes objects.
- config.py, logging, `BackgroundTasks` and async scheduling are not modelled.
- The Russian wording of the templates and replies is not modelled. Templates keep their placeholder structure, with short stand-in literal text. Replies are named by meaning.
- Notifications.Str: `str()` of floats and booleans is not modelled. Record values are text, integers or `None`.
- Notifications.NewBookingText, Notifications.CancelText and Notifications.BonusText state the rendered text only for records whose values print without `{`. Otherwise a value can be scanned again by later keys, as `OrderMatters` shows.
- Keyboards.InlineKeyboard: `row == 0` raises `ValueError` in `range`. The model returns None instead.
- Webhook.HandleUpdate: errors that make the handler raise are not modelled. These are a message without a chat id and a `text` that is JSON null. An absent text reads as "".
- Webhook.HandleUpdate: the admin notice carries the YCLIENTS response value, not its `json.dumps` text. The `parse_mode` argument is not modelled.
- YClientsApi.ServicesByCategory: ids are integers, so Python's cross-type `==` (an int never equals a str) is not modelled. Records always carry the filtered key.
- YClientsApi: replies are taken as well-typed records that carry every key the code reads: `data` in every envelope, and `date` and `times` in every day. The `KeyError` or `TypeError` that a malformed reply raises at yclients_api.py:64, 85, 104, 124-126 and 144 is not modelled.
- YClientsApi.MastersForService: a master's `services` is either absent or a list, never JSON null. A null list would make `service_id in None` raise `TypeError` at yclients_api.py:104, and that is not modelled.
- YClientsApi.CreateBooking: a client record is taken to carry `id`, `name` and `phone`. The `KeyError` raised at yclients_api.py:165-167 by an incomplete client record, before any POST, is not modelled.
- Webhook.BookingResult: a reply whose body does not decode as JSON is passed as `Raised`. This matches main.py:125 and 131, where `r.json()` raises before the status test and the exception becomes the error record.
