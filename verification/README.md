# Rubber Duck as a Service — a Dafny model

This project models the behaviour of the RDaaS marketplace, a small React app
that rents out "rubber ducks" as debugging companions. It covers:

- the six-duck catalog;
- the mood engine, which re-rolls every duck's mood (and with it a price
  modifier and an availability bonus) once more than thirty minutes have
  passed;
- the catalog filter and the filter bar that drives it, with its select values
  and sentinels;
- the duck card, the profile dialog's offer cards and the booking dialog,
  which prices a session and submits a request;
- the page-level handlers that open dialogs, refuse unavailable ducks and
  append booked sessions;
- the sessions dashboard;
- the chat: the keyword classifier, the canned replies and the history a
  conversation builds.

Everything is modelled as pure functions over immutable datatypes.

Modelling choices:

- Prices are exact. Mood modifiers are integer hundredths (0.95 is `95`) and
  session-type multipliers are tenths (1.2 is `12`). `Math.round(x)` is
  `floor(x + 1/2)` computed on the exact rational (`Pricing.RoundHalfUp`).
- `Math.random()` is an input. A draw is the numerator `r < 2^53` of
  `r / 2^53`. `Math.floor(Math.random() * n)` is taken as the floor of
  the exact product `r * n / 2^53` (`Random.Index`). The engine rounds
  the product first, so for a few draws the two differ by one (see
  "Left out").
- Clock readings are inputs: times are milliseconds since the epoch (`Time`).
  Message and session ids are inputs too.
- Persisted state (`useKV`) is an ordinary field: the session list of the
  page, and the mood marker of `MoodSystem.MoodState`.

Modules:

| module | what it is |
|---|---|
| `Types` | the entities (`Duck`, `Mood`, `ChatPersonality`, `Session`, `ChatMessage`) and the string spellings of their unions |
| `MoodSystem` | `updateMoods` and `getMoodDescription` |
| `Catalog` | `data/ducks.ts` |
| `Search` | `filteredDucks` |
| `Filters` | the filter bar |
| `Card` | the duck card |
| `Profile` | the profile dialog's offers |
| `Pricing` | both price formulas |
| `Booking` | the booking dialog |
| `Dashboard` | the sessions dashboard |
| `Chat` | the chat |
| `Marketplace` | the page state and its handlers |
| `Text`, `Seqs`, `Random`, `Wrappers` | support: `includes`, `toLowerCase`, `trim`, numerals, `Array.filter`, `Math.random`, `Option` |

The catalog's seed moods are not all in line with the mood table. Professor
Quack is seeded happy at 0.95, Captain Debug grumpy at 1.15 and Dr. Syntax
excited at 0.9, while the table gives 0.9, 1.2 and 0.85. The model keeps
the listed values, and `Catalog.SeedMoods` states which entries disagree.

Where the system's written description and its code differ, the model
follows the code:

- Moods are re-rolled only when strictly more than thirty minutes have
  passed (`timeDiff > 30 * 60 * 1000`), not at exactly thirty
  (`MoodSystem.ThresholdIsStrict`).
- Three of the four fallback replies embed the duck's debugging style. The
  first opens with a drawn catch phrase, the fourth is a drawn catch phrase
  on its own (`Chat.Fallbacks`). One draw selects among the four, and
  each of them is selected by some draw (`Chat.FallbackReachable`).
- The profile dialog lists `round(rate × type multiplier)`, leaving out the
  mood modifier; only the booking dialog applies the mood
  (`Pricing.ProfileUnitPrice`, `Pricing.PricesDiverge`).
- Joining a session only raises a notification. No session moves from
  upcoming to active (`Marketplace.JoinSession`).

## Model

| member | source | states |
|---|---|---|
| Types.History | src/components/chat/ChatInterface.tsx:22 | an absent chat history reads as the empty list, a present one as itself |
| Types.ParseMood | src/types/duck.ts:20 | a string reads as a mood exactly when it is one of the five mood names, and then as the mood of that name |
| Types.ParseAvailability | src/types/duck.ts:11 | a string reads as an availability exactly when it is one of the three names, and then as that availability |
| Types.NamesDistinct | src/types/duck.ts:11-59 | the moods, availabilities, session types and statuses each have pairwise distinct names |
| MoodSystem.PriceModifier | src/hooks/useDuckMoodSystem.ts:24-30 | every table modifier lies in [0.85, 1.2]; it is below 1.0 exactly for happy and excited, and exactly 1.0 for focused |
| MoodSystem.AvailabilityBonus | src/hooks/useDuckMoodSystem.ts:33-39 | a mood grants the availability bonus exactly when its table modifier is at most 1.0 |
| MoodSystem.MoodFor | src/hooks/useDuckMoodSystem.ts:41-46 | the mood written for a drawn kind is that kind, agrees with both tables and is stamped with the update time |
| MoodSystem.MarkerTime | src/hooks/useDuckMoodSystem.ts:13 | the empty stored marker reads as the epoch, a stored time as itself |
| MoodSystem.EveryMoodReachable | src/hooks/useDuckMoodSystem.ts:20-21 | each of the five moods is the outcome of some `Math.random()` result |
| MoodSystem.Reroll | src/hooks/useDuckMoodSystem.ts:18-47 | every duck, in order, gets the table mood of its own draw, stamped now; every other field is kept |
| MoodSystem.UpdateMoods | src/hooks/useDuckMoodSystem.ts:11-50 | within thirty minutes of the marker nothing changes. Past that, every duck's mood is re-rolled from its draw, consistent with the tables and stamped now, nothing else about a duck changes, and the marker becomes now |
| MoodSystem.ThresholdIsStrict | src/hooks/useDuckMoodSystem.ts:17 | exactly thirty minutes after the marker the state is unchanged; one millisecond later it is updated |
| MoodSystem.FirstCheckUpdates | src/hooks/useDuckMoodSystem.ts:8-17 | with the initial empty marker, any check later than thirty minutes past the epoch updates |
| MoodSystem.Idempotent | src/hooks/useDuckMoodSystem.ts:14-49 | a second check within thirty minutes of an update leaves the updated state exactly as it is, whatever it draws |
| MoodSystem.ConsistencyPreserved | src/hooks/useDuckMoodSystem.ts:41-46 | once every duck's mood agrees with the tables, or an update is due, every duck agrees after the check |
| MoodSystem.ModifierRange | src/types/duck.ts:21 | every modifier the engine writes lies within [0.85, 1.2], inside the documented 0.8 to 1.3 |
| MoodSystem.MoodDescriptionInjective | src/hooks/useDuckMoodSystem.ts:62-77 | two moods with the same description are the same mood |
| Random.Index | src/hooks/useDuckMoodSystem.ts:21 | the index drawn is the floor of `r / 2^53 * n`, so it is always a valid index of a non-empty list |
| Random.IndexReachable | src/hooks/useDuckMoodSystem.ts:21 | every index of a list of at most 2^53 items is drawn by some `Math.random()` result |
| Catalog.Ducks | src/data/ducks.ts:3-291 | the catalog holds six ducks |
| Catalog.Entry1 | src/data/ducks.ts:4-51 | Debugbert: id "1", its three specialties, $50, available, seeded focused at 1.0 with the bonus and the load time; three non-empty lines of each kind |
| Catalog.Entry2 | src/data/ducks.ts:52-99 | Professor Quack: id "2", $75, available, seeded happy at 0.95 with the bonus |
| Catalog.Entry3 | src/data/ducks.ts:100-147 | Zen Duck: id "3", $40, busy, seeded sleepy at 1.1 without the bonus |
| Catalog.Entry4 | src/data/ducks.ts:148-195 | Captain Debug: id "4", $60, available, seeded grumpy at 1.15 without the bonus |
| Catalog.Entry5 | src/data/ducks.ts:196-243 | Dr. Syntax: id "5", $65, offline, seeded excited at 0.9 with the bonus |
| Catalog.Entry6 | src/data/ducks.ts:244-291 | Rubber Einstein: id "6", $80, available, seeded excited at 0.85 with the bonus, and lists "Math Problems" |
| Catalog.EveryEntry | src/data/ducks.ts:3-291 | the six entries' listing fields and seed moods together, and every personality voiced |
| Catalog.Ids | src/data/ducks.ts:5-245 | the ids are "1" to "6" in order, pairwise distinct, so `find` by id picks a unique duck |
| Catalog.Rates | src/data/ducks.ts:11-251 | the six hourly rates, all positive |
| Catalog.Availabilities | src/data/ducks.ts:14-254 | Zen Duck is busy, Dr. Syntax offline, every other duck available |
| Catalog.Personalities | src/data/ducks.ts:24-289 | every duck has three non-empty catch phrases and replies of each kind, so every duck can always answer |
| Catalog.SeedMoods | src/data/ducks.ts:18-263 | only ducks 1, 3 and 6 are seeded in line with the mood table; all seeds carry the load time |
| Catalog.SeedModifierRange | src/data/ducks.ts:20-260 | every seed modifier lies in the documented range [0.8, 1.3] |
| Search.Filtered | src/App.tsx:73-87 | the listing is the catalog with the non-matching ducks dropped, in catalog order: everything listed matches, and every matching duck is listed as often as the catalog holds it |
| Search.NoCriteriaListsAll | src/App.tsx:74-86 | with no search and no filter the whole catalog is listed, in order |
| Search.QueryIgnoresCase | src/App.tsx:74-78 | the search matches the same ducks whatever the case of the query |
| Search.NameSearchFinds | src/App.tsx:75 | a duck whose name contains the query, ignoring case, is listed when no filter is set |
| Search.RangeBounds | src/App.tsx:82-84 | both range bounds are inclusive; upper bound 999 admits every rate at or above the lower bound |
| Search.MoodDoesNotFilter | src/App.tsx:73-87 | whether a duck is listed does not depend on its mood |
| Search.FilterIgnoresMoods | src/App.tsx:73-87 | two catalogs that differ only in moods list the same ducks, position by position, moods aside |
| Filters.RangeKey | src/components/filters/DuckFilters.tsx:99 | a range's select value is a non-empty string starting with a digit |
| Filters.RangeKeyInjective | src/components/filters/DuckFilters.tsx:99 | two ranges with the same `"lo-hi"` key are the same range |
| Filters.FindRange | src/components/filters/DuckFilters.tsx:104 | `find` returns a listed range whose key is the value, or nothing exactly when no listed key matches |
| Filters.PriceValue | src/components/filters/DuckFilters.tsx:99 | the price select shows the sentinel exactly when no range is set |
| Filters.OnPriceChange | src/components/filters/DuckFilters.tsx:100-107 | the sentinel clears the range; any range set is a listed range whose key is the value chosen |
| Filters.PriceRoundTrip | src/components/filters/DuckFilters.tsx:98-120 | choosing a listed range, or "all prices", and reading the select back gives the same selection |
| Filters.UnknownKeyClears | src/components/filters/DuckFilters.tsx:104-105 | a value that is no listed key clears the price filter |
| Filters.SpecialtyValue | src/components/filters/DuckFilters.tsx:72 | no specialty, or an empty one, shows the sentinel; any other shows itself |
| Filters.OnSpecialtyChange | src/components/filters/DuckFilters.tsx:72 | the sentinel clears the specialty, any other value sets it |
| Filters.SpecialtyRoundTrip | src/components/filters/DuckFilters.tsx:72-84 | every listed specialty, and "all", round-trips through the select |
| Filters.StatusValue | src/components/filters/DuckFilters.tsx:86 | the status select shows the sentinel exactly when no availability is set |
| Filters.OnStatusChange | src/components/filters/DuckFilters.tsx:86 | the sentinel clears the availability; any availability set is the one named by the value |
| Filters.StatusRoundTrip | src/components/filters/DuckFilters.tsx:86-96 | every availability, and "all", round-trips through the select |
| Filters.Clear | src/components/filters/DuckFilters.tsx:49-55 | after clearing no filter is active |
| Filters.InactiveListsAll | src/components/filters/DuckFilters.tsx:57 | while no filter is active the whole catalog is listed |
| Filters.ClearListsAll | src/components/filters/DuckFilters.tsx:49-55 | clearing lists the whole catalog |
| Filters.PriceBadge | src/components/filters/DuckFilters.tsx:152 | the badge reads `$lo - $hi`, with "80+" in place of the sentinel 999 |
| Filters.RangesCoverAndOverlap | src/components/filters/DuckFilters.tsx:37-42 | every rate lies in some listed range; $65 lies in two of them and so does $80 |
| Filters.SpecialtyOptionsOffered | src/components/filters/DuckFilters.tsx:30-35 | every specialty option names a specialty of some catalog duck, while the catalog's "Math Problems" has no option |
| Card.AvailabilityDisplayDistinct | src/components/duck/DuckCard.tsx:13-38 | different availabilities get different dot colours and different badge texts |
| Card.MoodEmoji | src/components/duck/DuckCard.tsx:21-30 | the default duck emoji is shown exactly for strings that are not mood names |
| Card.MoodEmojiDistinct | src/components/duck/DuckCard.tsx:21-30 | every mood has its own emoji, none of them the default |
| Card.VisibleSpecialties | src/components/duck/DuckCard.tsx:74 | the badges shown are the first three specialties, or all of them if there are fewer |
| Card.MoreBadge | src/components/duck/DuckCard.tsx:79-83 | the "+k more" badge appears exactly when there are more than three specialties, with k written in decimal |
| Card.BadgesCountAll | src/components/duck/DuckCard.tsx:74-83 | the badges shown plus the number in the "+k more" badge is the number of specialties |
| Card.PriceBadge | src/components/duck/DuckCard.tsx:90-94 | "Discount!" exactly below a neutral modifier, "Premium" exactly above, no badge at 1.0 |
| Card.ActualPrice | src/components/duck/DuckCard.tsx:88 | the intended price line: the rate under the mood, rounded to whole dollars, equal to the booking dialog's debugging price |
| Card.View | src/components/duck/DuckCard.tsx:41-104 | the intended card: a prefix of at most three specialties, a mood emoji other than the default, the mood price of a debugging hour, the book button enabled exactly for an available duck, and a price badge exactly off a neutral modifier |
| Card.RenderAsWritten | src/components/duck/DuckCard.tsx:88 | rendering a card as written always throws the ReferenceError of the undeclared `getActualPrice` |
| Card.Render | src/components/duck/DuckCard.tsx:41-104 | the intended render always shows the card, priced at the debugging price |
| Profile.OfferFor | src/components/duck/DuckProfile.tsx:109-170 | a card books its own session type and lists the mood-free price |
| Profile.Offers | src/components/duck/DuckProfile.tsx:17 | no dialog without a duck; otherwise three cards in debugging, career, existential order, each with its list price |
| Profile.OffersCoverEveryType | src/components/duck/DuckProfile.tsx:109-170 | the three cards book all three session types, and the debugging card lists the bare hourly rate |
| Pricing.TypeMultiplier | src/components/booking/BookingModal.tsx:33 | the multiplier is 1.0 exactly for debugging, above it exactly for career and below it exactly for existential |
| Pricing.MoodSignal | src/components/duck/DuckCard.tsx:90-94 | a modifier below 1.0 signals a discount, one above a premium, and exactly 1.0 signals nothing; the card badge and the booking note both report this one signal |
| Pricing.RoundHalfUp | src/components/booking/BookingModal.tsx:34 | the result is the nearest integer to the quotient, halves going up |
| Pricing.RoundMonotone | src/components/booking/BookingModal.tsx:34 | rounding never reverses the order of two quotients |
| Pricing.RoundSeparates | src/components/booking/BookingModal.tsx:34 | quotients a whole unit apart round to different integers |
| Pricing.BookingUnitPrice | src/components/booking/BookingModal.tsx:32-35 | the booking price is the rate times modifier times multiplier, rounded to the nearest dollar |
| Pricing.ProfileUnitPrice | src/components/duck/DuckProfile.tsx:35-38 | the list price is the rate times multiplier, rounded to the nearest dollar |
| Pricing.ProfileOverThousand | src/components/duck/DuckProfile.tsx:35-38 | the list price is the same rounding carried out over thousandths |
| Pricing.DebuggingListPriceIsRate | src/components/duck/DuckProfile.tsx:125 | the debugging card lists the hourly rate itself |
| Pricing.NeutralMoodAgrees | src/components/booking/BookingModal.tsx:32-35 | at a neutral modifier the dialog charges what the profile lists |
| Pricing.OverCommonScale | src/components/booking/BookingModal.tsx:32-35 | both prices are roundings over thousandths of one product, which differs only in the modifier factor |
| Pricing.MoodDirection | src/components/booking/BookingModal.tsx:32-35 | a discount mood never charges more than the profile lists, a premium mood never less |
| Pricing.PricesDiverge | src/components/booking/BookingModal.tsx:32-35 | once the mood moves the exact price by at least a dollar, the dialog and profile prices differ |
| Pricing.SmallRateHidesMood | src/components/booking/BookingModal.tsx:32-35 | a happy duck at one dollar an hour is charged the listed price, so a non-neutral mood need not change the price |
| Pricing.TotalCost | src/components/booking/BookingModal.tsx:37 | no hours cost nothing; any positive number of hours costs at least one hourly price |
| Pricing.CareerExample | src/components/booking/BookingModal.tsx:32-37 | a $75 duck at 0.95 costs $86 per career hour and $258 for three, against a listed $90 |
| Booking.HourLabel | src/components/booking/BookingModal.tsx:39-42 | an hour's label is two digits reading as the hour, then ":00" |
| Booking.TimeSlotsAreHourly | src/components/booking/BookingModal.tsx:39-42 | the slots are the twelve hours from 09:00 to 20:00, in order |
| Booking.DurationOptionsAreOneToFour | src/components/booking/BookingModal.tsx:162-165 | the duration options are the numerals 1 to 4 |
| Booking.Hours | src/components/booking/BookingModal.tsx:37 | an empty duration counts as one hour; any other reads as the 1 to 4 hours its numeral names |
| Booking.PriceNote | src/components/booking/BookingModal.tsx:187-191 | "Discount applied!" exactly below a neutral modifier, "Premium pricing" exactly above, nothing at 1.0 |
| Booking.PriceNoteIsHonest | src/components/booking/BookingModal.tsx:186-191 | a discount note only appears when the charge is at most the list price, a premium note when it is at least |
| Booking.Dialog | src/components/booking/BookingModal.tsx:30-198 | no dialog without a duck and a type. Otherwise it shows the total for the chosen hours and the note for the mood, and submit is enabled exactly when date, time and duration are set and no submit is pending |
| Booking.Submit | src/components/booking/BookingModal.tsx:44-68 | an incomplete form changes nothing. A complete one sends the duck, the form's fields, the hours and their total, and resets the form |
| Booking.SubmitChargesShownTotal | src/components/booking/BookingModal.tsx:37-58 | whenever submit is enabled, the request's cost is the total the dialog showed |
| Booking.ResetFormIsNotReady | src/components/booking/BookingModal.tsx:64-67 | a submitted form is reset to one a second submit refuses |
| Dashboard.WithStatus | src/components/sessions/SessionDashboard.tsx:15-17 | a tab holds exactly the sessions of its status, in booked order |
| Dashboard.Partition | src/components/sessions/SessionDashboard.tsx:15-17 | the three tabs together hold every session exactly as often as the list does |
| Dashboard.OneTabEach | src/components/sessions/SessionDashboard.tsx:15-17 | a session appears in its own status's tab and in no other |
| Dashboard.AppendLandsLast | src/components/sessions/SessionDashboard.tsx:15-17 | a session appended to the list lands last in its own tab; the other tabs stay as they were |
| Dashboard.BadgesDistinct | src/components/sessions/SessionDashboard.tsx:19-33 | the three session types get different badge colours and different labels |
| Dashboard.ActionFor | src/components/sessions/SessionDashboard.tsx:75-89 | only an upcoming session's button joins; the other two have no handler |
| Dashboard.ActionCaptionsDistinct | src/components/sessions/SessionDashboard.tsx:75-89 | the three statuses get the three different captions "Join Session", "End Session" and "View Details" |
| Dashboard.NotesShown | src/components/sessions/SessionDashboard.tsx:67-72 | the notes line appears exactly for non-empty notes, showing them |
| Chat.MentionsAnyOfIff | src/components/chat/ChatInterface.tsx:57-79 | the source's three `includes` tests per category say the same as "contains one of the category's words" |
| Chat.Classify | src/components/chat/ChatInterface.tsx:53-79 | the category chosen is the first, in the source's order, whose words the lower-cased message contains; no category exactly when it contains none |
| Chat.ClassifyIgnoresCase | src/components/chat/ChatInterface.tsx:53 | lower-casing the message first does not change the category |
| Chat.EncouragementWins | src/components/chat/ChatInterface.tsx:57 | a message mentioning "help", "stuck" or "error" is answered from the encouragement pool whatever surrounds it |
| Chat.KeywordMentions | src/components/chat/ChatInterface.tsx:57-79 | each trigger word alone mentions its own category |
| Chat.ErrorFixedEncourages | src/components/chat/ChatInterface.tsx:57-73 | "error fixed" is answered with encouragement although it also says "fixed" |
| Chat.StuckOnErrorEncourages | src/components/chat/ChatInterface.tsx:57 | "I'm stuck on this error" is answered with encouragement |
| Chat.WhatWorksConfuses | src/components/chat/ChatInterface.tsx:63-73 | "what works" is answered from the confusion pool although it also says "works" |
| Chat.Pick | src/components/chat/ChatInterface.tsx:58-60 | a draw picks an element of the list |
| Chat.PickReachable | src/components/chat/ChatInterface.tsx:58-60 | every element of a list is picked by some draw |
| Chat.Fallbacks | src/components/chat/ChatInterface.tsx:82-87 | four fallbacks: the first three embed the debugging style, the first starts with a drawn catch phrase, the fourth is a catch phrase |
| Chat.Respond | src/components/chat/ChatInterface.tsx:50-90 | a keyword message is answered from its category's pool, any other by one of the four fallbacks |
| Chat.PoolReplyReachable | src/components/chat/ChatInterface.tsx:57-79 | every reply in the matched category's pool is given for some draw |
| Chat.FallbackReachable | src/components/chat/ChatInterface.tsx:82-89 | each of the four fallbacks is the reply for some template draw |
| Chat.FindDuck | src/components/chat/ChatInterface.tsx:21 | the duck found is the first with the id; nothing exactly when no duck has it |
| Chat.GenerateReply | src/components/chat/ChatInterface.tsx:50-51 | a session whose duck is missing gets the lost-voice line, otherwise its duck's reply |
| Chat.ReplyNonEmpty | src/components/chat/ChatInterface.tsx:50-90 | a duck with no empty lines never replies with an empty string |
| Chat.SeedGreeting | src/components/chat/ChatInterface.tsx:24-41 | an empty history of a known duck becomes exactly its greeting, tagged greeting; otherwise nothing changes |
| Chat.Send | src/components/chat/ChatInterface.tsx:92-111 | a blank message, or a send while typing, changes nothing. Otherwise the trimmed text is appended as a user message, the box clears, the duck starts typing, and the reply waits on the untrimmed text |
| Chat.Deliver | src/components/chat/ChatInterface.tsx:113-127 | the reply to the untrimmed text, tagged debugging, is appended to the history the send produced, and typing stops |
| Chat.ExchangeAppends | src/components/chat/ChatInterface.tsx:92-127 | a non-blank turn keeps the history and appends exactly a user message with the trimmed text, then a duck message |
| Chat.ConverseAppends | src/components/chat/ChatInterface.tsx:92-127 | n non-blank turns keep the history and add exactly 2n messages, alternating user then duck |
| Chat.GreetingThenTurns | src/components/chat/ChatInterface.tsx:24-127 | opening an empty chat and exchanging n messages leaves 2n + 1 messages, led by the duck's greeting |
| Text.Lower | src/App.tsx:75 | lower-casing keeps the length and folds each letter A-Z to a-z, leaving other characters alone |
| Text.LowerAppend | src/App.tsx:75-78 | lower-casing distributes over concatenation |
| Text.LowerIdempotent | src/App.tsx:75-78 | lower-casing twice is lower-casing once |
| Text.ContainsInContext | src/App.tsx:75-78 | an occurrence survives any text added around it |
| Text.Trim | src/components/chat/ChatInterface.tsx:98 | the trimmed text is a contiguous slice of the input, with only white space outside it and none at either end |
| Text.TrimEmptyIff | src/components/chat/ChatInterface.tsx:93 | a message trims to nothing exactly when it is all white space |
| Text.NatToString | src/components/duck/DuckCard.tsx:81 | a number prints as a non-empty string of digits with no leading zero |
| Text.NatToStringRoundTrip | src/components/booking/BookingModal.tsx:55 | parsing a printed number gives the number back |
| Text.NatToStringInjective | src/components/filters/DuckFilters.tsx:99 | different numbers print differently |
| Seqs.Filter | src/App.tsx:73 | the filter is a subsequence of the input that holds only elements that pass and every element that passes |
| Seqs.FilterCounts | src/App.tsx:73 | the filter holds each passing element exactly as often as the input does, and no failing element |
| Seqs.FilterAppend | src/App.tsx:59 | filtering distributes over concatenation |
| Seqs.FilterPartition | src/components/sessions/SessionDashboard.tsx:15-17 | three tests that split the elements split the sequence's multiset |
| Seqs.FilterPairwise | src/App.tsx:73-87 | related sequences, filtered by tests that agree on related elements, give related results |
| Marketplace.Opened | src/App.tsx:16-27 | the page opens on the marketplace with the stored sessions, no selection, no dialog and no filter |
| Marketplace.Listed | src/App.tsx:138-144 | every card shown is a catalog duck matching the filters |
| Marketplace.ShowAll | src/App.tsx:138-144 | a tab of card renders shows exactly when no render throws, and then shows each card in order |
| Marketplace.CardsAsWritten | src/App.tsx:138-144 | as written, the marketplace tab shows its cards exactly when no duck is listed (the tab's part only: the throw takes down the whole page, so the empty listing is never reached) |
| Marketplace.Cards | src/App.tsx:138-144 | as intended, the tab shows one card per listed duck, in order, each with its duck's debugging price and booking state |
| Marketplace.OpeningTabThrows | src/App.tsx:16-27 | as written, the page opened over the catalog shows no card; the throw in fact takes down the whole page |
| Marketplace.OpeningTabShowsEveryDuck | src/App.tsx:16-27 | as intended, the page opened over the catalog shows all six cards |
| Marketplace.SelectDuck | src/App.tsx:29-32 | the duck is selected and its profile opens; nothing else changes |
| Marketplace.BookSession | src/App.tsx:34-44 | an unavailable duck leaves the page unchanged. An available one is selected with the type, the profile closes and the booking dialog opens; sessions, tab and filters are unchanged |
| Marketplace.ProfileBook | src/components/duck/DuckProfile.tsx:109-170 | with no duck selected nothing happens; otherwise offer i books its own session type under the same refusal rule |
| Marketplace.CardClick | src/components/duck/DuckCard.tsx:41-104 | any click on a card, its book button included, selects the duck and opens its profile; the booking dialog, the sessions, the tab and the filters are unchanged |
| Marketplace.BookButtonOpensProfile | src/components/duck/DuckCard.tsx:100-107 | the card's book button books nothing: pressing it does what any other click on the card does |
| Marketplace.NewSession | src/App.tsx:47-57 | the new session is upcoming and carries the request's duck, type, duration, cost and description, dated `dateTtime:00` |
| Marketplace.ConfirmBooking | src/App.tsx:46-66 | exactly one session is appended after the existing ones; the dialog closes, the selection clears and the sessions tab opens |
| Marketplace.JoinSession | src/App.tsx:68-70 | joining changes no state |
| Marketplace.BookingFlow | src/App.tsx:34-66 | booking an available duck with a complete form appends one upcoming session of that duck and type, charged the dialog total, at the end of the upcoming tab |
| Marketplace.UnavailableNeverBooked | src/App.tsx:35-38 | a refused booking leaves the sessions and opens no dialog |
| Marketplace.PriceSignalsAgree | src/components/duck/DuckCard.tsx:90-94 | the card badge and the dialog note agree on discount, premium or neither |
| Marketplace.MoodUpdateKeepsListing | src/App.tsx:73-87 | a mood update never changes which ducks are listed, only their moods |

## Findings

| source | as written | input that shows it | evidently intended | confidence | as-written member | corrected member |
|---|---|---|---|---|---|---|
| src/components/duck/DuckCard.tsx:88 | the price line calls `getActualPrice()`, which no module declares, so rendering any card throws a ReferenceError. `App` has no error boundary, so on first load the error unmounts the whole page: header, tab bar, filters and sessions dashboard included. Searching or filtering down to an empty listing needs a rendered page, so no state of the app as written renders. The model records only the tab's part: the marketplace shows no card, and no card click can lead to the profile or to booking | the page as it opens over the six-duck catalog (`Marketplace.OpeningTabThrows`) | the card shows the duck's mood price `round(rate × modifier)`, the price the booking dialog charges for a debugging hour | high; not executed | Card.RenderAsWritten, Marketplace.CardsAsWritten | Card.ActualPrice, Card.View, Marketplace.Cards |

The rest of the model uses the corrected card. `Marketplace.Listed`,
`Marketplace.CardClick` and the booking flow start from a card that is
shown.

## Left out

- Rendering, layout, icons and CSS are not modelled. So are the scroll
  effect, the `Tabs` component, toasts and the `Toaster`.
- Timers are not modelled. The mount-and-every-five-minutes schedule of
  `updateMoods`, the chat's 1–3 s typing delay and the 1.5 s submit delay
  are left out. The model takes one check or one callback at a time.
- `useKV` persistence is an ordinary field. Nothing is stored or loaded.
- `useDuckMoodSystem` mutates the imported `ducks` array in place. The model
  returns the updated catalog instead. No file of the app calls this hook,
  and `ChatInterface` is not rendered by `App`; both are modelled as
  written anyway.
- MoodSystem.UpdateMoods: the source reads the clock twice, once for the
  stamp and once for the elapsed time. The model uses one reading `now` for
  both.
- Times are milliseconds, not ISO strings. Date formatting (`format(date,
  'yyyy-MM-dd')`, `'PPP'`) and the date picker are not modelled. The
  booking form holds the already formatted date string.
- Floating point is not modelled. Prices are computed on exact rationals, so
  a product whose float value lands just off a `.5` boundary may round
  differently in the app.
- Pricing.TotalCost: states only the bounds (zero hours cost zero, any
  positive number of hours costs at least the unit price), not the
  product itself.
- Marketplace.CardClick: assumes a click on the disabled book button
  reaches the card's handler, as it does for a button styled with
  `pointer-events: none`. The button component is not part of this
  model. With a button that swallows disabled clicks, such a click would
  do nothing.
- Random.Index: is the floor of the exact product `r * n / 2^53`. The
  engine rounds the double product to 53 bits before the floor. For a
  draw just below a multiple of `2^53 / n` the engine's index is one
  higher: `r = 5404319552844595` with `n = 5` gives index 3 in the engine
  and 2 here. The range and reachability facts hold for both.
- Session status transitions are not modelled: nothing in the app moves a
  session out of "upcoming". The "End Session" and "View Details" buttons
  have no handler.
- Text.Lower: `toLowerCase` is modelled on the ASCII letters only. Other
  characters are left alone.
- Booking.Hours: `parseInt` is modelled only on what the duration select can
  hold, the numerals 1 to 4 or the empty string.
- Filters.OnStatusChange: the source casts the select's string to an
  availability unchecked. The model reads it with `ParseAvailability`, which
  agrees on the four values the select offers.
- `getMoodDescription`'s `default` branch ("In a normal mood.") cannot be
  reached with a typed mood and is not modelled.
- Chat.Respond: requires a personality whose catch-phrase list and reply
  pools are all non-empty. With an empty pool the source would return
  `undefined`. Every catalog duck meets the requirement
  (`Catalog.Personalities`).
- `MoodSystem.MoodDescription`, the badge colour and label functions, and
  the titles and descriptions are plain tables. Their rows are the
  distinctness lemmas about them.
- The duplicate `getMoodEmoji` in `ChatInterface`
  (src/components/chat/ChatInterface.tsx:153-162) is the same table as the
  card's and is modelled once, as `Card.MoodEmoji`.
- Search input state: the filter bar keeps its own copy of the search text
  next to the page's. The model keeps one.
