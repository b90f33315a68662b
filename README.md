# BOTcaffe loyalty bot — a Dafny model

BOTcaffe is a Telegram bot for an anticafé (`botcaffe.py`). Guests register with
`/start`, share a phone number, and mark their visits. Every seventh visit earns a
free coffee. Guests can also see their bonus card, the list of upcoming events and
the café's contacts, and can leave feedback. Operators (the `admins` table) get a
panel with visit statistics, a broadcast to every registered user, and a
four-step flow for adding an event: title, description, date, photo.

The model covers:

- **Ledger** (`ledger.dfy`): the four SQLite tables as a value (`Ledger.Tables`),
  one function per write and per query, and the class `Ledger.Database`. Its
  mutable fields hold the tables, and each method states its new state through
  those functions. Proved properties:
  - the visit count rises by exactly one per visit and nobody else's changes;
  - the statistics totals are the table sizes, and the top five is ordered and
    really is the top;
  - the event listing is a sorted permutation of the events, and with dates
    in the padded storage format it runs in chronological order;
  - the insert-or-ignore writes are idempotent.
- **Collation** (`collation.dfy`): SQLite's default text ordering, used by
  `ORDER BY event_date`. It is proved to be a total order.
- **Event dates** (`dates.dfy`):
  - reading the operator's `DD.MM.YYYY HH:MM` with strptime's field rules and
    the calendar checks of `datetime`;
  - the storage form `YYYY-MM-DD HH:MM:SS` as strftime writes it through the
    C library (glibc), whose `%Y` writes years below 1000 without padding;
  - the display form `DD.MM.YYYY в HH:MM`, whose year goes through the same
    unpadded `%Y`.

  Proved: both round trips, and that text order on stored dates is
  chronological order, for four-digit years. Below year 1000 the stored text
  neither reads back nor sorts in time order (see Findings).
- **Loyalty arithmetic** (`loyalty.dfy`): the three places that compute the
  distance to the next free coffee. The main menu and the visit note agree. The
  "my bonuses" screen has no zero guard, so it shows 7 where the menu shows 0.
  The model keeps that behaviour and proves exactly where the two differ.
- **Dialog** (`dialog.dfy`): the FSM states, the data collected during a flow,
  routing (which handler a message reaches), and each handler's effect on the
  state, as pure functions. Proved:
  - the collected data always holds what the current state needs, so the photo
    step never raises `KeyError`;
  - non-operators cannot reach operator states or operator actions;
  - the full authoring flow stores the event with a normalised date;
  - where a flow is abandoned, and where it is not.
- **Broadcast** (`broadcast.dfy`): the delivery loop of `process_mailing`, a
  method with loop invariants proved against a specification of the tally and
  the failure log.
- **Bot** (`bot.dfy`): the class `Bot.Bot`, which holds one ledger and one
  dialog context per user. `Handle` processes one incoming message: it routes
  the message, makes the ledger write and computes the reply. Its contract
  gives the new contexts, the new tables and the reply, and keeps an invariant
  over all users' contexts and the ledger.

Two assumptions about the dispatcher library (aiogram) are built into routing:

- handlers are tried in registration order, and the first whose filters match
  runs;
- a handler registered without a state filter matches in every state.

## Behaviour kept as the code has it

The model follows the code in each case below, including where the outcome
looks unintended.

- **Menu counter at zero visits.** The menu counter (`botcaffe.py:200`) is 0
  for a guest with no visits as well as on a completed cycle. Only the "free
  coffee today" line (`botcaffe.py:208`) checks that visits are positive.
- **Commands during a flow.** A button pressed in the middle of a flow wins
  only if its handler is registered *before* the state handler. "✉️ Отзыв"
  (registered at line 401) sent in the description state becomes the event's
  description (`Dialog.FeedbackButtonTakenAsDescription`). "📢 Рассылка"
  (line 305) abandons the flow (`Dialog.BroadcastAbandonsAuthoring`).
- **Refusing non-operators.** Only `/admin` answers a non-operator with a
  denial (`botcaffe.py:269-271`). Statistics, broadcast and add-event return
  without an answer (`Dialog.NonOperatorRefused`).
- **Phone capture.** `Form.phone` is declared but never entered: the contact
  handler has no state filter, so it takes a contact message in any state
  (`Dialog.PhoneStateNeverEntered`, `Dialog.StateHandlersRunInTheirState`).
- **Starting a new flow.** `set_state` replaces only the state. The data
  collected so far stays until a flow completes (`Dialog.OperatorStartsFlows`).
- **Unreadable dates in the listing.** The event listing (`botcaffe.py:254-263`)
  stops at the first stored date that strptime cannot read. `Bot.Cards` models
  that break. `Bot.ListingComplete` proves it does not happen while every date
  has a four-digit year. `Bot.ListingBreaksOnShortYear` proves it does happen
  once one event has a year below 1000 (see Findings).

## Model

| member | source | states |
|---|---|---|
| Loyalty.MenuRemaining | botcaffe.py:200 | The menu counter is below 7, brings the count to a multiple of 7, is the least such distance, and is 0 exactly on multiples of 7 (including 0 visits). |
| Loyalty.FreeCoffeeToday | botcaffe.py:208 | The free-coffee line appears exactly for a positive multiple of 7 visits. |
| Loyalty.MenuRemainingAfterVisit | botcaffe.py:200 | One more visit lowers the menu counter by one, and a completed cycle restarts it at 6. |
| Loyalty.MarkVisitNote | botcaffe.py:227-233 | The visit note announces a free coffee exactly on a multiple of 7; otherwise it carries the total and a positive distance equal to the menu's, and for a positive count it agrees with the menu's free-coffee line. |
| Loyalty.BonusRemaining | botcaffe.py:243 | The bonus screen shows 1..7, which brings the count to a multiple of 7; it equals the menu counter exactly when the count is not a multiple of 7, and shows 7 where the menu shows 0. |
| Collation.TextLeReflexive | botcaffe.py:152 | The text order used by ORDER BY event_date is reflexive. |
| Collation.TextLeTotal | botcaffe.py:152 | Any two texts are comparable. |
| Collation.TextLeTransitive | botcaffe.py:152 | The text order is transitive. |
| Collation.TextLeAntisymmetric | botcaffe.py:152 | Texts ordered both ways are equal. |
| Collation.TextLeOnSameWidthPrefix | botcaffe.py:152 | Texts with equal-width leading fields compare by those fields first, then by the rest. |
| EventDates.ParseInput | botcaffe.py:362 | Whatever strptime accepts under "%d.%m.%Y %H:%M" is a valid date and time with seconds 0. |
| EventDates.ParseStored | botcaffe.py:256 | Whatever strptime accepts under "%Y-%m-%d %H:%M:%S" is a valid date and time. |
| EventDates.YearText | botcaffe.py:363 | The year as `%Y` writes it is the decimal numeral of the year, with no leading zero: its digits read back as the year; it has at most three digits below 1000 and is the four-digit padded year from 1000 on. |
| EventDates.StoredText | botcaffe.py:363 | What the date step stores is the padded storage format for a four-digit year, and shorter than it below 1000. |
| EventDates.PaddedStoredText | botcaffe.py:363 | The padded storage format "YYYY-MM-DD HH:MM:SS" is always 19 characters long. |
| EventDates.DisplayText | botcaffe.py:256 | The shown date is the operator's typed form with the year as `%Y` writes it and " в " in place of the space; for a four-digit year it is exactly the typed form. |
| EventDates.NormalizeEventDate | botcaffe.py:362-363 | The date step accepts exactly the texts strptime reads, and stores a text it writes for a valid instant. |
| EventDates.DisplayEventDate | botcaffe.py:256 | The listing shows a date exactly when strptime can read the stored text. |
| EventDates.PaddedRoundTrip | botcaffe.py:256 | The padded storage format of every valid instant, whatever its year, reads back as that instant. |
| EventDates.InputRoundTrip | botcaffe.py:362 | Reading a zero-padded "DD.MM.YYYY HH:MM" of a valid instant gives that instant back. |
| EventDates.StoredRoundTrip | botcaffe.py:256 | For a year from 1000 on, what the date step stores reads back as the instant, and is in the padded storage format. |
| EventDates.ShortYearUnreadable | botcaffe.py:256 | For a year below 1000, what the date step stores cannot be read back, so the listing cannot show it. |
| EventDates.StoredTextReads | botcaffe.py:256 | A date in the padded storage format reads back as its instant, and the listing shows it in display form. |
| EventDates.NormalizedDateDisplays | botcaffe.py:362-363 | An accepted input is stored as strftime writes the instant read; the listing shows that instant again for a four-digit year and cannot read it below 1000. |
| EventDates.NormalizeAcceptsValidDates | botcaffe.py:362-363 | Every valid instant typed zero-padded is accepted and stored as its storage form. |
| EventDates.StoredOrderIsChronological | botcaffe.py:152 | For four-digit years, text order on what the date step stores is exactly chronological order, in both directions. |
| EventDates.PaddedOrderIsChronological | botcaffe.py:152 | On the padded storage format, text order is exactly chronological order for every year, in both directions. |
| EventDates.StoredTextsCompare | botcaffe.py:152 | For any two dates in the padded storage format, text order agrees with the order of their instants. |
| EventDates.ExampleOutOfRange | botcaffe.py:362-367 | "32.13.2024 10:00" is refused. |
| EventDates.ExampleNoLeapDay | botcaffe.py:362-367 | 29 February of a non-leap year is refused. |
| EventDates.ExampleAccepted | botcaffe.py:362-363 | "01.06.2024 18:30" is stored as the storage form of 2024-06-01 18:30:00. |
| EventDates.ExampleOneDigitFields | botcaffe.py:362-363 | One-digit day, month and hour are accepted, as strptime accepts them. |
| EventDates.ExampleShortYearAccepted | botcaffe.py:362-363 | "01.01.0999 10:00" is accepted as the year 999. |
| EventDates.ExampleYear999 | botcaffe.py:363 | The year 999 is stored as "999-01-01 10:00:00", which the listing cannot read. |
| EventDates.ExampleYear999SortsLate | botcaffe.py:152 | That stored text sorts after a date in 2024 although it is earlier in time. |
| EventDates.ExampleYear999Digits | botcaffe.py:363 | `%Y` writes the year 999 as "999". |
| EventDates.ExampleYear999Typed | botcaffe.py:362 | The operator types the year 999 as "01.01.0999 10:00". |
| EventDates.ExampleShortYearShown | botcaffe.py:256 | The listing writes that instant as "01.01.999 в 10:00", with the unpadded year. |
| EventDates.ExampleShortYearRead | botcaffe.py:256 | A stored "0999-01-01 10:00:00" reads as the year 999. |
| EventDates.ExampleShortYearDisplayed | botcaffe.py:256 | The listing shows that stored text as "01.01.999 в 10:00". |
| Ledger.WithAdmin | botcaffe.py:72-75 | Adding an operator adds the id to the admins and changes nothing else. |
| Ledger.WithUser | botcaffe.py:82-89 | A known id leaves the tables as they were; a new id gets a row with no phone and goes last in user order; other tables are untouched; well-formedness is kept. |
| Ledger.WithPhone | botcaffe.py:91-97 | The phone of a registered user is set and every other row is unchanged; an unknown id changes nothing. |
| Ledger.WithVisit | botcaffe.py:99-106 | A visit row is appended, with no check that the user is registered; nothing else changes. |
| Ledger.WithEvent | botcaffe.py:142-148 | An event is appended with the next id and the given fields; nothing else changes. |
| Ledger.CountVisits | botcaffe.py:111-115 | The count of a user's visit rows never exceeds the number of rows. |
| Ledger.VisitCountOf | botcaffe.py:109-115 | get_visits_count is the number of visit rows that carry the user's id. |
| Ledger.CountVisitsIsMultiplicity | botcaffe.py:111-115 | A user's visit count is the number of visit rows with that user id. |
| Ledger.AddVisitCounts | botcaffe.py:99-107 | After add_visit the user's count is one more, every other user's count is unchanged, and one row was added. |
| Ledger.VisitsAddUp | botcaffe.py:99-107 | k visits in a row raise the user's count by exactly k. |
| Ledger.UserIds | botcaffe.py:117-120 | The users listed are the registered users, each exactly once. |
| Ledger.RowsFor | botcaffe.py:130-137 | The grouped LEFT JOIN has one row per registered user, carrying the full name and visit count, and nothing else. |
| Ledger.SortByVisits | botcaffe.py:135 | ORDER BY visits DESC yields a non-increasing permutation of its input. |
| Ledger.Ranked | botcaffe.py:130-137 | The ranked rows are the grouped rows, reordered into non-increasing visit order. |
| Ledger.Top | botcaffe.py:136 | LIMIT 5 keeps the first min(5, n) rows, in their order, so a visit-ordered list stays visit-ordered. |
| Ledger.StatsOf | botcaffe.py:122-140 | The totals are the sizes of the users and visits tables; the top list has at most 5 lines, in non-increasing visit order. |
| Ledger.StatsTotals | botcaffe.py:122-140 | The statistics report the number of users and of visits, and a top list of min(5, users) lines. |
| Ledger.TopLinesAreUsers | botcaffe.py:130-138 | The top list is in non-increasing visit order, and each line is a registered user's full name with that user's count. |
| Ledger.TopIsTop | botcaffe.py:135-136 | Every user left out of the top list has no more visits than its last line. |
| Ledger.EveryUserRanked | botcaffe.py:132-134 | A registered user with no visits still has a row (count 0). |
| Ledger.SortByDate | botcaffe.py:152 | ORDER BY event_date yields a permutation sorted by the event_date text. |
| Ledger.EventListing | botcaffe.py:150-153 | get_events returns every event exactly once, sorted by the event_date text. |
| Ledger.AddedEventListed | botcaffe.py:142-153 | An added event comes back from get_events with its fields unchanged. |
| Ledger.ListingIsChronological | botcaffe.py:150-153 | When every date is in the padded storage format (a four-digit year), the listing runs from the earliest instant to the latest. |
| Ledger.AddAdminIdempotent | botcaffe.py:72-75 | add_admin makes the id an operator, keeps the other operators, and a repeat changes nothing. |
| Ledger.AddUserIdempotent | botcaffe.py:82-89 | A second add_user for an id changes nothing, whatever name and date it carries. |
| Ledger.RegisterKeepsPhone | botcaffe.py:82-97 | A repeated /start never erases a captured phone. |
| Ledger.Database.constructor | botcaffe.py:40-70 | A new database file has four empty tables. |
| Ledger.Database.AddAdmin | botcaffe.py:72-75 | The new tables are those of WithAdmin, and well-formedness is kept. |
| Ledger.Database.IsAdmin | botcaffe.py:77-80 | Answers true exactly when the id is in admins. |
| Ledger.Database.AddUser | botcaffe.py:82-89 | The new tables are those of WithUser, and well-formedness is kept. |
| Ledger.Database.UpdatePhone | botcaffe.py:91-97 | The new tables are those of WithPhone, and well-formedness is kept. |
| Ledger.Database.AddVisit | botcaffe.py:99-107 | The new tables are those of WithVisit; the count returned is the new count, one more than before. |
| Ledger.Database.GetVisitsCount | botcaffe.py:109-115 | Returns the user's visit count, at most the number of visits. |
| Ledger.Database.GetAllUsers | botcaffe.py:117-120 | Returns every registered user exactly once. |
| Ledger.Database.GetStats | botcaffe.py:122-140 | Returns the statistics of the current tables. |
| Ledger.Database.AddEvent | botcaffe.py:142-148 | The new tables are those of WithEvent, and well-formedness is kept. |
| Ledger.Database.GetEvents | botcaffe.py:150-153 | Returns the events sorted by date text, as a permutation of the events table. |
| Dialog.SkipInAnyCase | botcaffe.py:373 | The skip word is recognised in any letter case, and other words (or trailing spaces) are not. |
| Dialog.Lower | botcaffe.py:373 | Lowering keeps the length and lowers each character on its own. |
| Dialog.IsSkip | botcaffe.py:373 | A text is the skip word exactly when it has the skip word's length and lowers to it letter by letter. |
| Dialog.Route | botcaffe.py:173-409 | "/start" reaches its handler exactly when the text is "/start", in any state; a message finds no handler only with no state or in the unused phone state. |
| Dialog.RunHandler | botcaffe.py:173-414 | A prompt moves the user into the state it asks for; a refused input or a raise keeps the context; a broadcast, a stored event or thanks for feedback clears it. |
| Dialog.Step | botcaffe.py:173-414 | A re-prompt keeps the context and repeats the prompt of the state the user is in. |
| Dialog.EventDateStep | botcaffe.py:359-367 | A message without text raises; a text strptime reads moves to the photo step with the date added as strftime writes it and the other fields kept; anything else keeps the context and re-prompts. |
| Dialog.PhotoChoice | botcaffe.py:373-376 | The skip word in any letter case chooses no photo; a photo with sizes chooses its last (largest) size; nothing else is a choice. |
| Dialog.EventPhotoStep | botcaffe.py:369-385 | Without a choice it re-prompts and keeps the context; with one it stores the event with that photo and clears the context, or raises and keeps it. |
| Dialog.StateHandlersRunInTheirState | botcaffe.py:316-410 | A state-bound handler runs only in its state; the phone handler gets every contact message. |
| Dialog.RunHandlerKeepsSessionInv | botcaffe.py:347-385 | Each handler, run in its own state, keeps the invariant on the collected data. |
| Dialog.StepKeepsSessionInv | botcaffe.py:347-385 | Every message keeps the invariant: each authoring state has the fields asked for so far, and a collected date is one the date step wrote. |
| Dialog.PhotoStepNeverRaises | botcaffe.py:371-381 | Under the invariant the photo step never raises KeyError, and any event it stores has a date the date step wrote. |
| Dialog.StoredEventDateIsWritten | botcaffe.py:359-381 | Any event a step stores carries a date the date step wrote. |
| Dialog.NonOperatorRefused | botcaffe.py:267-345 | For a non-operator, "/admin" gets the denial; statistics, broadcast and add-event get no answer; nothing is written and the context is unchanged. |
| Dialog.PrivilegedRoutes | botcaffe.py:267-345 | The privileged commands reach their handlers in every state, except add-event in the broadcast state, where it is broadcast. |
| Dialog.StatelessHandlersKeepSession | botcaffe.py:173-264 | The handlers that neither start nor finish a flow (start, contact, visit, bonuses, events, panel, statistics, main menu, contacts, no handler) leave the context unchanged. |
| Dialog.NonOperatorStaysOut | botcaffe.py:305-345 | A non-operator outside the operator states stays outside, and never broadcasts, stores an event, sees statistics or opens the panel. |
| Dialog.PhoneStateNeverEntered | botcaffe.py:159 | The declared phone state is never entered. |
| Dialog.OperatorStartsFlows | botcaffe.py:305-345 | An operator's broadcast and add-event buttons set the state, keep the collected data and prompt. |
| Dialog.TitleAndDescriptionSteps | botcaffe.py:347-357 | The title and description steps store the text and move to the next state. |
| Dialog.DateStep | botcaffe.py:359-367 | An unreadable date keeps state and data and re-prompts; a readable one is stored as strftime writes it and moves to the photo step. |
| Dialog.RoutesToDateStep | botcaffe.py:359-360 | In the date state, any text that is not an earlier-registered command reaches the date step. |
| Dialog.DateStepNormalizes | botcaffe.py:359-365 | A zero-padded valid date and time is stored as strftime writes that instant with second 0 ("YYYY-MM-DD HH:MM:00" for a four-digit year). |
| Dialog.PhotoStep | botcaffe.py:369-385 | The skip word stores the event with no photo; a photo stores it with its largest size; anything else re-prompts; storing clears state and data. |
| Dialog.MailingStep | botcaffe.py:316-333 | The broadcast step sends the message's text and clears the context. |
| Dialog.AuthoringFlow | botcaffe.py:336-385 | An operator's button, title, description, date and skip store the event with the texts given and the date as strftime writes it, and end in a cleared context. |
| Dialog.BroadcastAbandonsAuthoring | botcaffe.py:305-334 | The broadcast button mid-authoring replaces the flow, and the next text is broadcast. |
| Dialog.FeedbackButtonTakenAsDescription | botcaffe.py:353-357 | The feedback button in the description state becomes the description. |
| Broadcast.Delivered | botcaffe.py:318-330 | The success tally never exceeds the recipients, and equals them exactly when every delivery succeeds. |
| Broadcast.Failed | botcaffe.py:325-326 | Successes plus logged failures account for every recipient. |
| Broadcast.FailedAreUnreached | botcaffe.py:321-326 | The failure log names exactly the recipients whose delivery failed. |
| Broadcast.Dispatch | botcaffe.py:318-330 | The loop's tally and failure log are those of the specification, and together they account for every recipient. |
| Broadcast.DeliveredSplit | botcaffe.py:321-326 | A failure never stops the loop: the tally over a list is the sum over any split of it. |
| Broadcast.ExampleOneFailure | botcaffe.py:321-330 | Of three recipients with the second unreachable, two are counted and the second is logged. |
| Bot.MenuFor | botcaffe.py:198-209 | The menu shows the visit count and the menu counter (below 7), and the free-coffee line exactly when visits are positive and the counter is 0. |
| Bot.CardOf | botcaffe.py:258-263 | A card carries the event's title and description and the shown date, and a photo exactly when the event has a non-empty photo id. |
| Bot.Cards | botcaffe.py:254-263 | The listing has at most one card per event; it breaks off exactly when it has fewer cards than events, and then the first event without a card is one whose date cannot be read. |
| Bot.CardsBreakOff | botcaffe.py:254-256 | The listing breaks off exactly when some event's date cannot be read. |
| Bot.CardsShowEvents | botcaffe.py:254-263 | Each card shown belongs to the event in the same place, with its date in display form. |
| Bot.CardsOfStoredDates | botcaffe.py:254-263 | When every date is in the padded storage format, there is a card for every event with its display date, and no break. |
| Bot.ListingComplete | botcaffe.py:246-263 | With every date in the padded storage format (four-digit years), "📅 События" shows every event, in listing order, each dated in display form. |
| Bot.ListingBreaksOnShortYear | botcaffe.py:254-256 | One event whose date the date step wrote for a year below 1000 breaks the listing off: neither it nor any event listed after it gets a card. |
| Bot.Reach | botcaffe.py:323 | A message without text reaches nobody; a message with text reaches exactly those the messaging service delivers to. |
| Bot.Apply | botcaffe.py:171-414 | Only registration, phone, visit and event actions write; none touches the operators; only storing an event changes the events; well-formedness is kept. |
| Bot.Respond | botcaffe.py:198-334 | Only an ignored message goes unanswered and only a raise fails; the broadcast report counts every listed user as a recipient and no more successes; the listing says "no events" exactly when there are none. |
| Bot.WrittenDatesKept | botcaffe.py:381 | Every event date stays one the date step wrote after every write. |
| Bot.StepKeepsSessions | botcaffe.py:305-385 | One user's step keeps every context valid, with only operators in operator states. |
| Bot.NonOperatorCannotAdminister | botcaffe.py:267-345 | A non-operator changes neither events nor operators, and gets no statistics, panel, broadcast report or event confirmation. |
| Bot.VisitReplyAgrees | botcaffe.py:223-235 | After a visit, the note and the menu both count the new visit and announce the free coffee together. |
| Bot.MailingReport | botcaffe.py:316-334 | The broadcast report counts every registered user as a recipient, at most that many successes, none for a message without text, and all exactly when every delivery succeeds. |
| Bot.NobodyReached | botcaffe.py:323 | A message without text is delivered to nobody. |
| Bot.Bot.constructor | botcaffe.py:418-420 | On a new database file the only change is the seed operator 586842186. |
| Bot.Bot.Handle | botcaffe.py:171-414 | One message: the sender's context becomes the routed handler's next context; the ledger becomes what the action writes; the reply is read off the new ledger; the invariant over all contexts and the ledger is kept. |
| Bot.Bot.Perform | botcaffe.py:175-385 | The handler's ledger write and its answer, as Apply and Respond state them. |
| Bot.Bot.Answer | botcaffe.py:198-334 | The answer of each read-only handler, with the broadcast sent through the dispatch loop. |

## Left out

- Telegram I/O, keyboards and the exact wording of answers: replies are modelled by the data they report (`Bot.Reply`).
- The clock: registration and visit dates use the wall clock in the Moscow time zone. The model takes the reading as a parameter (`now`), written in the same storage form. Time zones are not modelled.
- Delivery of a broadcast message is decided by the messaging service, so it is a parameter (`send`). Logging of a failure is modelled as the failure list. Exception types are not modelled.
- Concurrency between users' updates, and the asyncio scheduling of handlers: messages are handled one at a time.
- The SQLite autoincrement id of a visit row: counts only depend on matched rows. An event's id is modelled as one more than the number of events, which holds because nothing is ever deleted.
- Order of rows a query returns without ORDER BY, and of ties under ORDER BY. SQLite returns the users of this rowid table in ascending user_id. The model returns them in registration order and breaks ties with a stable sort. The proofs use only membership, distinctness, sortedness and permutation.
- The feedback text: the source does not store or forward it, and neither does the model.
- EventDates.ParseInput: does not model strptime's acceptance of any run of whitespace for the space in the format, of a blank-padded day such as " 1", or of non-ASCII digits. These inputs are refused in the model.
- Dialog.Lower: maps only the ASCII and Cyrillic capitals to lower case; other scripts are left unchanged. This is enough for the skip word, whose letters are all Cyrillic.
- Errors raised by the database driver or by Telegram calls other than the broadcast send: the model has no failing database.
- The dispatcher's handling of an exception (`Dialog.Action.Raise`): the model records that the handler stopped, and the state stays as it was.
- A database file that already exists: `Ledger.Database.constructor` and `Bot.Bot.constructor` model a fresh `anticafe.db`. On a restart the rows persist (`CREATE TABLE IF NOT EXISTS`), while the dialog contexts, which the dispatcher keeps in memory, are lost.
- EventDates.StoredRoundTrip: stated for years from 1000 on, because below that the stored text does not read back (`EventDates.ShortYearUnreadable`, see Findings).
- EventDates.StoredOrderIsChronological: stated for years from 1000 on, because below that the stored text does not sort in time order (`EventDates.ExampleYear999SortsLate`, see Findings).
- EventDates.NormalizedDateDisplays: promises the shown date only for years from 1000 on; below that it states that the listing cannot read the date (see Findings).
- Bot.ListingComplete: stated for dates with four-digit years; `Bot.ListingBreaksOnShortYear` covers the others (see Findings).

## Findings

| source | as written | input that shows it | evidently intended | confidence | as-written member | corrected member |
|---|---|---|---|---|---|---|
| botcaffe.py:363 | `strftime("%Y-%m-%d %H:%M:%S")` under glibc writes a year below 1000 without padding, so "01.01.0999 10:00" is stored as "999-01-01 10:00:00". strptime's `%Y` at line 256 then needs four digits and raises, which ends the listing. ORDER BY at line 152 also puts that text after "2024-…". | "01.01.0999 10:00" at the date step | the four-digit storage format, which reads back and sorts chronologically for every year | medium: not executed; depends on the C library's strftime and on the Python release | EventDates.ExampleYear999 | EventDates.PaddedStoredText |

The as-written behaviour is modelled by `EventDates.StoredText` (through
`EventDates.YearText`). It is exhibited by `EventDates.ShortYearUnreadable`,
`EventDates.ExampleYear999`, `EventDates.ExampleYear999SortsLate` and
`Bot.ListingBreaksOnShortYear`. The corrected format, `EventDates.PaddedStoredText`,
reads back for every year (`EventDates.PaddedRoundTrip`). Its text order is
chronological for every year (`EventDates.PaddedOrderIsChronological`).
`EventDates.StoredText` agrees with it from year 1000 on. The rest of the model
stores what the code stores, and states its listing and ordering properties
for four-digit years. The display at line 256 goes through the same `%Y`. A
stored "0999-…", which only the corrected format would write, is read as the
year 999 and shown as "01.01.999 в 10:00" (`EventDates.ExampleShortYearDisplayed`).
