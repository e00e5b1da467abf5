# Cameroon tourism advisor: a verified model of its core logic

This project models the decision logic of the Cameroon tourism advisor web
application in Dafny and proves properties of it. The application is a
React/TypeScript front end over a hosted database. The model covers:

- **The chat responder** (`Chat`). It lowercases a message, tries fifteen
  topic rules in a fixed order and returns the canned reply of the first rule
  that holds, or a default reply. Each rule asks whether the message contains
  any, or all, of a list of words as plain substrings. The model proves:
  - first match wins;
  - case does not matter;
  - the default reply and the off-topic refusal are given exactly when the
    rules say so;
  - the sixteen replies are pairwise different.
  The sample queries and the chat page's suggestions are worked through one
  by one. Among them, "What languages do they speak?" is greeted, because
  "they" contains "hey". "Is it safe to travel there?" gets the transport
  answer, because the "travel" rule is tried before the safety rule.
- **The static destination table and its lookups** (`DestinationData`):
  - lookup by id, with ids that are pairwise distinct;
  - filtering by category, ignoring case;
  - recommended months within 1..12.
- **The database-row to view-model transforms** (`DestinationService`):
  - field renaming;
  - child rows sorted by `order_index` or `day_number`, as a stable sort
    that gives a permutation of the rows;
  - missing lists defaulted to empty ones;
  - integer activity prices written in decimal.
- **The administrator session** (`AdminAuth`). It is a two-state machine:
  login checks a fixed pair of credentials, and logout signs out.
- **Bookings** (`Bookings`):
  - the four-valued status;
  - the per-id status update used by both dashboards;
  - the status buttons the administrator is offered, as a lifecycle that
    never goes back;
  - new bookings start out pending.
- **The administrator dashboard** (`AdminDashboard`):
  - form validation into a per-field error dictionary;
  - slug derivation from the name;
  - parsing of the comma-separated and the line-per-entry list fields,
    with round trips against the text the form shows;
  - the booking status update.
- **The user dashboard** (`UserDashboard`):
  - removing a saved destination;
  - cancelling a booking;
  - which bookings offer cancellation;
  - the tab count badge;
  - the review stars.
- **The destinations page** (`DestinationsPage`):
  - which list is shown, and which loading flag goes with it;
  - the `category` URL parameter and its round trip through lower case;
  - category change and filter reset.

The JavaScript string built-ins the code relies on are modelled in `Text`, on
ASCII: `toLowerCase`, `trim`, `split`, `join`, `includes` and integer
`toString`. `Array.prototype.filter`, `find`, `map` and `sort` are modelled in
`Sequences`.

State that the source keeps in React state and replaces through setters is
modelled as a Dafny class whose methods assign the fields:

| class | fields |
|---|---|
| `AdminAuth.AdminSession` | `isAuthenticated`, `username` |
| `AdminDashboard.Dashboard` | `bookings`, `formErrors`, `editing` |
| `UserDashboard.Dashboard` | `saved`, `bookings` |
| `DestinationsPage.Page` | `activeCategory`, `searchTerm`, the URL parameters |

A call to the hosted service becomes a boolean parameter that says whether it
succeeded. The toast shown on failure becomes the `Fail` message of the
returned outcome.

## Model

| member | source | states |
|---|---|---|
| Chat.ContainsAnyWord | src/utils/chatProcessor.ts:75-77 | holds exactly when some word of the list occurs in the text as a substring; false for an empty list |
| Chat.ContainsAllWords | src/utils/chatProcessor.ts:79-81 | holds exactly when every word of the list occurs in the text; true for an empty list |
| Chat.Classify | src/utils/chatProcessor.ts:9-72 | the selected topic's rule holds, and no rule tried before it holds |
| Chat.ProcessChatMessage | src/utils/chatProcessor.ts:4-73 | the reply is always one of the sixteen canned replies: that of a topic whose rule holds on the lowercased message, with every earlier rule failing |
| Chat.LengthOfReply | src/utils/chatProcessor.ts:10-72 | each canned reply has its own length |
| Chat.ReplyInjective | src/utils/chatProcessor.ts:10-72 | different topics have different replies, so the reply tells which rule fired |
| Chat.ReplySelectsTopic | src/utils/chatProcessor.ts:4-73 | the reply is topic t's reply exactly when the chain of rules selects t |
| Chat.FirstMatch | src/utils/chatProcessor.ts:9-69 | the chain selects t exactly when t's rule holds and no earlier rule holds |
| Chat.CaseInsensitive | src/utils/chatProcessor.ts:6 | a message and its lowercase form get the same reply |
| Chat.GreetingFirst | src/utils/chatProcessor.ts:9-11 | the greeting is returned exactly when a greeting word occurs, whatever else the message says |
| Chat.FallbackIffNoRule | src/utils/chatProcessor.ts:72 | the default reply is returned exactly when none of the fifteen rules holds |
| Chat.OffTopicOnlyWithoutTourism | src/utils/chatProcessor.ts:67-69 | the off-topic refusal is returned exactly when an off-topic word occurs and no tourism rule holds |
| Chat.EmptyMessage | src/utils/chatProcessor.ts:72 | the empty message gets the default reply |
| Chat.NoWordInEmpty | src/utils/chatProcessor.ts:9-67 | no rule holds on the empty text |
| Chat.EmbeddedGreeting | src/utils/chatProcessor.ts:9 | a message containing "they" or "this" is greeted, as words are matched as substrings |
| Chat.MountainClauseRedundant | src/utils/chatProcessor.ts:22 | the mountain rule holds exactly when one of its five words occurs; its "cameroon"+"mount" clause adds nothing |
| Chat.SampleHello | src/test.ts:5 | "Hello!" is greeted |
| Chat.SampleBestTime | src/test.ts:6 | "What's the best time to visit Cameroon?" gets the best-time reply |
| Chat.SampleBeaches | src/test.ts:7 | "Tell me about the beaches" gets the beaches reply |
| Chat.SampleCost | src/test.ts:8 | "How much does it cost to visit?" gets the budget reply |
| Chat.SampleLanguages | src/test.ts:9 | "What languages do they speak?" gets the greeting, not the language reply |
| Chat.SampleSafety | src/test.ts:10 | "Is it safe to travel there?" gets the transport reply, not the safety reply |
| Chat.SuggestionBeaches | src/pages/ChatPage.tsx:20 | the beaches suggestion gets the beaches reply |
| Chat.SuggestionMountain | src/pages/ChatPage.tsx:25 | the Mount Cameroon suggestion gets the mountain reply |
| Chat.SuggestionBestTime | src/pages/ChatPage.tsx:30 | the best-time suggestion gets the best-time reply |
| Chat.SuggestionYaounde | src/pages/ChatPage.tsx:35 | "How many days should I spend in Yaoundé?" gets the Yaoundé reply, not the itinerary reply |
| DestinationData.GetAllDestinations | src/data/destinations.ts:292-294 | the table itself, same entries in the same order |
| DestinationData.GetDestinationById | src/data/destinations.ts:296-298 | nothing exactly when no entry has the id; otherwise a table entry with that id |
| DestinationData.GetDestinationsByCategory | src/data/destinations.ts:300-304 | an order-preserving subsequence of the table holding exactly the entries whose category equals the argument once both are lowercased |
| DestinationData.IdsDistinct | src/data/destinations.ts:5-275 | no two table entries share an id |
| DestinationData.MonthsInRange | src/data/destinations.ts:57 | every recommended month in the table lies in 1..12 |
| DestinationData.GetByIdExact | src/data/destinations.ts:296-298 | the lookup answers d exactly for the table entry d carrying the id |
| DestinationData.GetKribiBeach | src/data/destinations.ts:5 | the id "kribi-beach" finds its entry |
| DestinationData.CategoryIgnoresCase | src/data/destinations.ts:302 | arguments equal once lowercased select the same entries |
| DestinationData.CategoryLowercased | src/data/destinations.ts:302 | a category and its lowercase form select the same entries |
| DestinationData.OnlyKribiIsBeaches | src/data/destinations.ts:3-290 | only the first entry has the beaches category |
| DestinationData.BeachesCategory | src/data/destinations.ts:300-304 | "beaches" selects exactly the beach destination |
| DestinationData.BeachesEitherCase | src/data/destinations.ts:302 | "Beaches" and "beaches" select the same entries |
| DestinationService.SortedTexts | src/services/destinationService.ts:223-225 | missing rows give []; otherwise the texts of a key-sorted permutation of the rows, one per row |
| DestinationService.ToActivity | src/services/destinationService.ts:226-231 | an activity keeps its row's name, description and duration, and its price reads back as price_xaf |
| DestinationService.ToPhrase | src/services/destinationService.ts:251-256 | english is english_phrase, phrase is local_phrase, language is copied, and the pronunciation is the row's or empty when null |
| DestinationService.ToDayActivity | src/services/destinationService.ts:270-274 | a step keeps its time, title and description |
| DestinationService.ToDay | src/services/destinationService.ts:265-275 | a day keeps its title and description; its activities are those of an order_index-sorted permutation of its rows, or none when missing |
| DestinationService.ToItinerary | src/services/destinationService.ts:260-276 | an itinerary keeps its title and description; its days are those of a day_number-sorted permutation of its rows, or none when missing |
| DestinationService.ToBestTime | src/services/destinationService.ts:238-242 | the best time keeps its period, description and months |
| DestinationService.TransformDestination | src/services/destinationService.ts:213-244 | every list is present, one entry per row or empty when the rows are missing; each activity is its row's projection; a present good_for is copied; the best time is present exactly when the row has one, and is then its projection; no detail lists |
| DestinationService.TransformDestinationWithDetails | src/services/destinationService.ts:246-278 | phrases, etiquette and itineraries are present, one entry per row or empty; each phrase and each itinerary is its row's projection |
| DestinationService.PhrasesRenamed | src/services/destinationService.ts:251-256 | phrases keep the row order, with english_phrase, local_phrase and language renamed and a present pronunciation kept |
| DestinationService.GoodForAndBestTime | src/services/destinationService.ts:237-242 | a present good_for is copied, and a present best time keeps its period, description and months |
| DestinationService.BaseFields | src/services/destinationService.ts:215-222 | id is the slug, image the image URL, reviews the review count; name, location, description, category and rating are copied |
| DestinationService.DetailsExtendBase | src/services/destinationService.ts:246-250 | the detailed transform agrees with the base one on every base field |
| DestinationService.HighlightsSorted | src/services/destinationService.ts:223-225 | highlights are the texts of a permutation of the rows sorted by order_index |
| DestinationService.GallerySorted | src/services/destinationService.ts:232-234 | gallery images are the URLs of a permutation of the rows sorted by order_index |
| DestinationService.MissingListsBecomeEmpty | src/services/destinationService.ts:223-237 | missing child rows and a missing good_for give empty lists |
| DestinationService.ActivityPrices | src/services/destinationService.ts:226-231 | activities keep the row order, name, description and duration, and each price reads back as the row's price_xaf |
| DestinationService.EtiquetteSorted | src/services/destinationService.ts:257-260 | etiquette tips come from a permutation of the rows sorted by order_index |
| DestinationService.ItineraryDaysSorted | src/services/destinationService.ts:260-276 | each itinerary of the detailed transform keeps its row's title and description, and its days are those of a day_number-sorted permutation of the day rows, or none when they are missing |
| DestinationService.DayActivitiesSorted | src/services/destinationService.ts:265-275 | each day of an output itinerary is the projection of one of its day rows, keeping title and description, with the activities of an order_index-sorted permutation of that row's activity rows |
| DestinationService.MissingPronunciation | src/services/destinationService.ts:255 | a null pronunciation becomes the empty string |
| AdminAuth.AdminSession.constructor | src/contexts/AdminContext.tsx:18-21 | starts signed out with no user name |
| AdminAuth.AdminSession.Login | src/contexts/AdminContext.tsx:23-35 | succeeds exactly for "kendi"/"1234" and then records that user name; otherwise fails with "Invalid credentials" and leaves the state; keeps signed-in iff a name is recorded |
| AdminAuth.AdminSession.Logout | src/contexts/AdminContext.tsx:37-42 | always signed out with no name, so a second logout changes nothing |
| AdminAuth.LoginThenLogout | src/contexts/AdminContext.tsx:23-42 | a fresh session is signed in exactly for the administrator credentials, then holds the administrator's user name (and none otherwise), and is signed out with no user name after logout |
| Bookings.NewBookingRow | src/services/bookingService.ts:20-31 | a new booking carries the form's fields and starts out pending |
| Bookings.SetStatusById | src/pages/admin/AdminDashboardPage.tsx:356-358 | same length, ids and order; only the status of the bookings with the id changes, to the new status |
| Bookings.SetStatusNoMatch | src/pages/admin/AdminDashboardPage.tsx:356-358 | an id no booking has leaves the list unchanged |
| Bookings.SetStatusIdempotent | src/pages/admin/AdminDashboardPage.tsx:356-358 | the same update twice is the update once |
| Bookings.SetStatusLastWins | src/pages/admin/AdminDashboardPage.tsx:356-358 | of two updates of one booking the later decides |
| Bookings.SetStatusCommutes | src/pages/admin/AdminDashboardPage.tsx:356-358 | updates of different bookings commute |
| Bookings.OfferedTransitions | src/pages/admin/AdminDashboardPage.tsx:611-637 | pending offers confirmed and cancelled, confirmed offers completed, cancelled and completed offer nothing; every offered status is further along and never pending |
| Bookings.RunStagesIncrease | src/pages/admin/AdminDashboardPage.tsx:611-637 | along any sequence of offered changes the lifecycle stage strictly increases |
| Bookings.RunsAreShort | src/pages/admin/AdminDashboardPage.tsx:611-637 | no status is revisited, at most two changes happen, and pending appears only first |
| Bookings.LifecycleEndings | src/pages/admin/AdminDashboardPage.tsx:611-637 | a pending booking ends cancelled, or confirmed and then completed: both runs exist, and every run from pending to an end is one of them |
| Bookings.StatusColor | src/pages/admin/AdminDashboardPage.tsx:366-374 | each status's badge classes begin with a text colour named after that status's own hue (green, yellow, red, blue) |
| Bookings.StatusColorInjective | src/pages/admin/AdminDashboardPage.tsx:366-374 | different statuses get different badge colours |
| AdminDashboard.Keys | src/pages/admin/AdminDashboardPage.tsx:208 | `Object.keys(errors)` lists exactly the keys that hold a message |
| AdminDashboard.NoKeysIffNoErrors | src/pages/admin/AdminDashboardPage.tsx:177-208 | an error dictionary has no keys exactly when it is the empty dictionary |
| AdminDashboard.ErrorsOf | src/pages/admin/AdminDashboardPage.tsx:179-205 | the dictionary holds a key exactly when its field is missing, and then that key's message |
| AdminDashboard.ErrorsOfEntries | src/pages/admin/AdminDashboardPage.tsx:179-205 | each key holds its message exactly when its field is missing, and is absent otherwise |
| AdminDashboard.ErrorsOfUnique | src/pages/admin/AdminDashboardPage.tsx:179-205 | any dictionary holding the messages of exactly the missing fields is the form's errors |
| AdminDashboard.MissingIffNotFilled | src/pages/admin/AdminDashboardPage.tsx:179-205 | a text field is missing exactly when it is blank after trimming; the image exactly when there is neither a file nor a URL; good_for exactly when it is empty |
| AdminDashboard.NoErrorsIffComplete | src/pages/admin/AdminDashboardPage.tsx:179-208 | the dictionary is empty exactly when every required field is filled |
| AdminDashboard.OptionalListsIgnored | src/pages/admin/AdminDashboardPage.tsx:176-209 | highlights and etiquette never cause an error |
| AdminDashboard.DashSpaceRuns | src/pages/admin/AdminDashboardPage.tsx:833 | the result has no white space, and no capitals if the input had none |
| AdminDashboard.Slugify | src/pages/admin/AdminDashboardPage.tsx:833 | a slug has no white space and no capitals |
| AdminDashboard.DashWithoutSpace | src/pages/admin/AdminDashboardPage.tsx:833 | text with no white space is left alone by the replacement |
| AdminDashboard.SlugIdempotent | src/pages/admin/AdminDashboardPage.tsx:833 | a slug is its own slug |
| AdminDashboard.SlugOfOneWord | src/pages/admin/AdminDashboardPage.tsx:833 | a name without white space becomes its lowercase form |
| AdminDashboard.DashAfterWord | src/pages/admin/AdminDashboardPage.tsx:833 | a word in front of the rest is kept |
| AdminDashboard.DashAfterRun | src/pages/admin/AdminDashboardPage.tsx:833 | a run of white space before a word becomes one dash |
| AdminDashboard.SlugJoinsWords | src/pages/admin/AdminDashboardPage.tsx:833 | a word, a run of white space and the rest become the lowercased word, one dash and the slug of the rest |
| AdminDashboard.ParseGoodFor | src/pages/admin/AdminDashboardPage.tsx:1026 | one entry more than there are commas, each without leading or trailing white space |
| AdminDashboard.GoodForOfEmpty | src/pages/admin/AdminDashboardPage.tsx:1026 | a cleared field reads as one empty entry |
| AdminDashboard.GoodForNeverMissing | src/pages/admin/AdminDashboardPage.tsx:203-205 | after any edit of the field the list is non-empty, so the good_for check never fires |
| AdminDashboard.JoinCommaSpace | src/pages/admin/AdminDashboardPage.tsx:1023 | joining with ", " is joining with "," after a space is put before every entry but the first |
| AdminDashboard.GoodForRoundTrip | src/pages/admin/AdminDashboardPage.tsx:1023-1026 | reading back the text the field shows gives the same list, when no entry holds a comma or has surrounding white space |
| AdminDashboard.ParseLines | src/pages/admin/AdminDashboardPage.tsx:1047 | no entry is blank or spans lines |
| AdminDashboard.ParseLinesKeeps | src/pages/admin/AdminDashboardPage.tsx:1047 | a line is kept exactly when it is not blank |
| AdminDashboard.ParseLinesRoundTrip | src/pages/admin/AdminDashboardPage.tsx:1044-1047 | reading back the text the field shows gives the same list, when every entry is non-blank and on one line |
| AdminDashboard.Dashboard.constructor | src/pages/admin/AdminDashboardPage.tsx:73-79 | no bookings, no errors and no form being edited |
| AdminDashboard.Dashboard.ValidateForm | src/pages/admin/AdminDashboardPage.tsx:176-209 | the stored errors are the form's errors, and the result, whether the dictionary has no keys, is true exactly when the form is complete |
| AdminDashboard.Dashboard.StartEditing | src/pages/admin/AdminDashboardPage.tsx:171-174 | the chosen destination becomes the one being edited |
| AdminDashboard.Dashboard.EditName | src/pages/admin/AdminDashboardPage.tsx:830-834 | the name and the slug derived from it are set together |
| AdminDashboard.Dashboard.EditGoodFor | src/pages/admin/AdminDashboardPage.tsx:1024-1027 | good_for becomes the parsed field |
| AdminDashboard.Dashboard.EditHighlights | src/pages/admin/AdminDashboardPage.tsx:1045-1048 | highlights become the non-blank lines of the field |
| AdminDashboard.Dashboard.EditEtiquette | src/pages/admin/AdminDashboardPage.tsx:1061-1064 | etiquette becomes the non-blank lines of the field |
| AdminDashboard.Dashboard.CloseEditor | src/pages/admin/AdminDashboardPage.tsx:1075-1079 | the edit and its errors are dropped |
| AdminDashboard.Dashboard.UpdateBookingStatus | src/pages/admin/AdminDashboardPage.tsx:353-364 | on success the list is updated by id; on failure it is kept and "Failed to update booking status" is reported |
| UserDashboard.Unsave | src/pages/UserDashboardPage.tsx:65 | an order-preserving subsequence without the destination, keeping every other entry with its multiplicity |
| UserDashboard.UnsaveMembership | src/pages/UserDashboardPage.tsx:65 | an entry remains exactly when it was saved and is for another destination |
| UserDashboard.UnsaveAbsent | src/pages/UserDashboardPage.tsx:65 | removing a destination not in the list changes nothing |
| UserDashboard.UnsaveIdempotent | src/pages/UserDashboardPage.tsx:65 | removing the same destination twice is removing it once |
| UserDashboard.CanCancel | src/pages/UserDashboardPage.tsx:294 | cancellation is offered exactly where the administrator is offered Cancel, and never for an ended booking |
| UserDashboard.CancelMatchesAdministrator | src/pages/UserDashboardPage.tsx:294-301 | the user may cancel exactly where the administrator is offered Cancel, and a cancelled booking offers nothing further |
| UserDashboard.CancelledNotCancellable | src/pages/UserDashboardPage.tsx:76-78 | after the local cancellation the booking offers no cancellation |
| UserDashboard.ShowCountBadge | src/pages/UserDashboardPage.tsx:425 | no count shows no badge, and a size shows one exactly when it is not zero |
| UserDashboard.BadgeForList | src/pages/UserDashboardPage.tsx:425 | a tab given its list's length shows the badge exactly when the list is not empty; no count shows no badge |
| UserDashboard.StarRow | src/pages/UserDashboardPage.tsx:344-351 | n stars, with every filled star before every empty one |
| UserDashboard.StarRowFilled | src/pages/UserDashboardPage.tsx:344-351 | as many stars are filled as the rating, clamped to 0..n |
| UserDashboard.Stars | src/pages/UserDashboardPage.tsx:344-351 | five stars, filled ones first, as many filled as the rating clamped to 0..5 |
| UserDashboard.StarsFilled | src/pages/UserDashboardPage.tsx:344-351 | for a rating from 0 to 5 exactly that many stars are filled, and they come first |
| UserDashboard.Dashboard.constructor | src/pages/UserDashboardPage.tsx:28-29 | no saved destinations and no bookings |
| UserDashboard.Dashboard.UnsaveDestination | src/pages/UserDashboardPage.tsx:62-71 | on success the destination's entries are removed; on failure the list is kept and "Failed to remove destination" is reported |
| UserDashboard.Dashboard.CancelBooking | src/pages/UserDashboardPage.tsx:73-84 | on success the booking is marked cancelled and nothing else changes; on failure the list is kept and "Failed to cancel booking" is reported |
| DestinationsPage.CategoryQuery | src/pages/DestinationsPage.tsx:21-23 | the category query is empty exactly for "All" (or an empty category), and otherwise is the category |
| DestinationsPage.DisplayDestinations | src/pages/DestinationsPage.tsx:27-35 | search results for a non-blank search, else the category's list for a category other than "All", else everything |
| DestinationsPage.Loading | src/pages/DestinationsPage.tsx:38 | the loading flag follows the same precedence as the displayed list |
| DestinationsPage.SearchOverridesCategory | src/pages/DestinationsPage.tsx:27-38 | while a search is typed the category affects neither the list nor the loading flag |
| DestinationsPage.BlankSearchIgnored | src/pages/DestinationsPage.tsx:28 | a search of only white space is no search |
| DestinationsPage.Capitalize | src/pages/DestinationsPage.tsx:44 | same length, first character uppercased, the rest kept |
| DestinationsPage.CategoryFromParam | src/pages/DestinationsPage.tsx:41-48 | the result is the current category or a button; no parameter keeps the current category; a parameter whose capitalised form is a button selects that button, and any other parameter keeps the current category |
| DestinationsPage.CapitalizeLower | src/pages/DestinationsPage.tsx:44-59 | capitalising undoes lowercasing for a capitalised word |
| DestinationsPage.CategoriesCapitalised | src/pages/DestinationsPage.tsx:10 | every button is a capitalised word |
| DestinationsPage.CategoryParamRoundTrip | src/pages/DestinationsPage.tsx:10-59 | a category other than "All" written to the URL in lower case reads back as itself |
| DestinationsPage.Lookup | src/pages/DestinationsPage.tsx:42 | the parameter's value, present exactly when the parameter is |
| DestinationsPage.Page.constructor | src/pages/DestinationsPage.tsx:13-15 | "All", no search, the URL the page was opened with |
| DestinationsPage.Page.AdoptUrlCategory | src/pages/DestinationsPage.tsx:41-49 | the category becomes the one read from the URL parameter, stays a button if it was one, and is kept when the parameter names no button |
| DestinationsPage.Page.SetSearchTerm | src/pages/DestinationsPage.tsx:15 | the search term is set and nothing else changes |
| DestinationsPage.Page.ChangeCategory | src/pages/DestinationsPage.tsx:51-62 | the category is set and the search cleared; "All" deletes the parameter, others set it in lower case; reading the URL back gives the chosen button; the page then shows that category |
| DestinationsPage.Page.ResetFilters | src/pages/DestinationsPage.tsx:216-221 | "All", no search, no category parameter, and everything is shown |
| Text.TrimStart | src/pages/admin/AdminDashboardPage.tsx:179 | drops exactly the leading white space |
| Text.TrimEnd | src/pages/admin/AdminDashboardPage.tsx:179 | drops exactly the trailing white space |
| Text.Trim | src/pages/admin/AdminDashboardPage.tsx:179 | the text inside the surrounding white space, itself without white space at either end |
| Text.BlankIffAllSpace | src/pages/admin/AdminDashboardPage.tsx:179 | a text is empty after trimming exactly when it is all white space |
| Text.Split | src/pages/admin/AdminDashboardPage.tsx:1026 | at least one piece, none holding the separator |
| Text.SplitCount | src/pages/admin/AdminDashboardPage.tsx:1026 | one piece more than there are separators |
| Text.JoinOfSplit | src/pages/admin/AdminDashboardPage.tsx:1026 | joining the pieces back with the separator gives the text |
| Text.SplitWithoutSeparator | src/pages/admin/AdminDashboardPage.tsx:1026 | text without the separator is its own only piece |
| Text.SplitOfJoin | src/pages/admin/AdminDashboardPage.tsx:1044-1047 | splitting a join of separator-free pieces gives the pieces back |
| Text.DecimalRoundTrip | src/services/destinationService.ts:230 | the decimal text of an integer reads back as that integer |
| Sequences.Filter | src/pages/UserDashboardPage.tsx:65 | an order-preserving subsequence whose elements all pass |
| Sequences.FilterCount | src/pages/UserDashboardPage.tsx:65 | each value passing keeps its multiplicity; each failing one is gone |
| Sequences.Find | src/data/destinations.ts:297 | nothing exactly when no element passes; otherwise the first element that passes |
| Sequences.SortBy | src/services/destinationService.ts:224 | sorted by key, a permutation of the input, and stable: equal keys keep their order |

## Left out

- Calls to the hosted database and storage are left out: reads, inserts, updates, deletes and uploads. They are I/O. Each state-changing handler takes the call's success as a parameter instead.
- Loading the dashboards' lists, deleting destinations and the insert/upsert chain of saving a destination are left out. They are sequences of service calls. Only the validation that guards saving is modelled.
- The map component, the chat page's timers and message list, the destination detail page, the data hooks with their debounce timer, and the presentation-only components are left out. They hold no logic beyond what is modelled here.
- Text handling is ASCII only. `toLowerCase` maps only A-Z, and `trim` and `\s` recognise only ASCII white space and line terminators. JavaScript's full Unicode case mapping and white-space classes are not modelled.
- DestinationService.SortedTexts: `Array.prototype.sort` is modelled as a pure stable sort that returns a new sequence. The in-place reordering of the fetched child arrays is not modelled.
- DestinationService.ActivityPrices: price_xaf is modelled as an integer. JavaScript's `toString` of fractional or very large prices ("1500.5", "1e+21") is not modelled.
- The success toasts are left out: 'Destination removed from saved list' and 'Booking cancelled successfully' on the user dashboard, and `Booking ${status} successfully` on the administrator dashboard. They are notifications with no effect on state. The `console.error` logging on the failure paths is left out as I/O.
- Coordinates, amenities, and the destination record's fields that no modelled operation reads are left out.
- AdminDashboard.Dashboard.ValidateForm: the uploaded image file is modelled by a flag that says whether one is present.
- AdminDashboard.Dashboard.ValidateForm: the error dictionary has one optional entry per field. Each entry is computed by `MessageIf`, the field's check as a conditional expression, rather than added by an `if` statement. The resulting dictionary is the same.
- AdminDashboard.Dashboard.EditName: the other form inputs are left out. They are plain field setters, like this one without the slug.
- UserDashboard.Stars: a review rating is modelled as an integer. A fractional rating fills the stars below it in the same way, but that case is not modelled.
- Bookings.StatusColor: the default colour of `getStatusColor` is unreachable for the four statuses, and is not modelled.
- The same `getStatusColor` function is defined again in src/pages/UserDashboardPage.tsx:85-93. It is modelled once.
- DestinationsPage.Page: the URL search parameters are modelled as a map from names to values. Parameter order and repeated names are not modelled.
- The page's grid/map view toggle and the selected destination on the map are left out.
