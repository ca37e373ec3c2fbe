# TravelTour booking and catalogue rules, in Dafny

TravelTour is a travel-booking web application. A React client lets
visitors browse destinations, keep favourites and lists, book trips for
several travelers through a four-step wizard, manage their bookings, and
sign up, sign in and edit a profile. A small Django REST server stores
users, destinations, bookings, favourites and contact messages.

This project models the rules inside both halves and proves what they
promise:

- The booking wizard is a class whose state is the current step, the error,
  the loading flag and the booking draft with its traveler roster. It covers
  the per-step validators, roster resizing, the total price and the create
  payload.
- The client-side list processing covers destination search, filters, sort,
  pagination and the page-button window, the favourite-id set, booking
  filters, sorts and status counts, and favourite and list edits.
- The form validators cover contact, registration and sign-in. There is also
  the profile editor, the session's payload cleaning and error message, and
  the query building of the hero search and the navigation bar.
- The server side covers:
  - booking creation, cancellation, the summary and `booking_id` generation;
  - the favourite toggle, status map and list membership;
  - contact validation, submission and listing;
  - registration and sign-in;
  - the destination list, featured list, quick search and picture choice.
- Cross-layer lemmas relate what the client sends to what the server checks,
  and name the inputs on which the two disagree.

Each file is one module and follows one source file. Shared modules hold
what several sources use:

- `Base` holds options, outcomes, navigation and the error-map helpers.
- `Text` holds trimming and case mapping, with separate white-space sets
  for the browser and for Python.
- `Js` holds JavaScript truthiness and `parseInt`.
- `Lists` holds filters and counts.
- `Sorting` holds a stable sort by an integer key.
- `Patterns` holds the e-mail patterns, written out as predicates.

Objects whose fields the source updates in place are classes:

- the React components' state;
- the server's tables (bookings, favourites, lists, contacts, users);
- the session.

Their methods are proved against specification functions.

Network results, the clock and random choices are parameters:

- An API call becomes an `Outcome` the caller passes in.
- "now" and "today" are day numbers or integer timestamps.
- The eight random digits of a booking id are an argument whose shape is
  checked.

Prices are integer cents and ratings are hundredths.

The booking wizard, as `BookingForm.js` has it:

- Each step's validator yields a single error string, not a per-field map.
- `nextStep` keeps an earlier error.
- The contact step's submit re-checks only step 3.
- `nextStep` advances any step that validates, up to 4. The page offers it
  only below step 3; on step 3 the submit handler takes over.

## Model

| member | source | states |
|---|---|---|
| BookingForm.WithField | frontend/src/components/BookingForm.js:64-71 | setting one traveler field changes that field and no other |
| BookingForm.UpdatedTraveler | frontend/src/components/BookingForm.js:64-71 | the roster keeps its length; only the record at `index` changes, and only in the named field; an index outside the roster changes nothing |
| BookingForm.SeedTraveler | frontend/src/components/BookingForm.js:22-49 | the first traveler is the default record with the signed-in user's first name, last name and e-mail filled in |
| BookingForm.SeedSplitsName | frontend/src/components/BookingForm.js:22-24 | without explicit first and last names, a full name with a space is split at its first space: first name + " " + last name gives the full name back, and the first name has no space |
| BookingForm.ResizedShape | frontend/src/components/BookingForm.js:73-103 | resizing to `count` gives max(count, 0) records: the existing ones kept in order, new ones the default record |
| BookingForm.ResizedGrowShrink | frontend/src/components/BookingForm.js:73-103 | growing the roster and shrinking it back gives the original roster (entered data survives) |
| BookingForm.UnitPrice | frontend/src/components/BookingForm.js:53 | the unit price is `price_per_person` when truthy, else `price` when truthy, else 1299.00 |
| BookingForm.TotalPrice | frontend/src/components/BookingForm.js:53 | the total is the unit price times the number of travelers: `price_per_person` times the count when that is truthy, 1299.00 times the count when neither price is; never negative for a non-negative count and price |
| BookingForm.TotalPriceStep | frontend/src/components/BookingForm.js:53 | no travelers cost nothing, and one more traveler adds exactly one unit price to the total |
| BookingForm.ValidateDates | frontend/src/components/BookingForm.js:108-121 | step 1 passes iff both dates are set, departure is before return and departure is after today; each failure gives its own message, in the source's order |
| BookingForm.MissingFieldNoneIff | frontend/src/components/BookingForm.js:128-150 | a traveler has no missing field iff first name, last name, e-mail and nationality are not blank after trimming and the date of birth is set |
| BookingForm.FirstIncomplete | frontend/src/components/BookingForm.js:128-150 | the scan finds the first incomplete traveler: every earlier one is complete, and none is found iff all are complete |
| BookingForm.ValidateTravelers | frontend/src/components/BookingForm.js:122-151 | step 2 passes iff the count is 1..20 and every traveler is complete; a count out of range gives the range message |
| BookingForm.ValidateTravelersNames | frontend/src/components/BookingForm.js:128-150 | the message names the first incomplete traveler (1-based) and its first missing field |
| BookingForm.ValidateContact | frontend/src/components/BookingForm.js:152-161 | step 3 passes iff contact name, phone and e-mail are all non-empty; a missing name or phone is reported before a missing e-mail |
| BookingForm.NarrowTravelers | frontend/src/components/BookingForm.js:196-202 | the payload holds one narrowed record per traveler, in order |
| BookingForm.ConfirmationId | frontend/src/components/BookingForm.js:574 | the confirmation shows the server's booking id when there is one, and is never empty |
| BookingForm.ConfirmationStatus | frontend/src/components/BookingForm.js:576 | the confirmation always shows a status |
| BookingForm.Wizard.Payload | frontend/src/components/BookingForm.js:187-203 | the payload renames the draft's fields to the server's names and carries every traveler narrowed |
| BookingForm.Wizard.constructor | frontend/src/components/BookingForm.js:18-51 | the wizard starts on step 1 with empty dates, one traveler seeded from the user and the user's e-mail as contact e-mail |
| BookingForm.Wizard.HandleInputChange | frontend/src/components/BookingForm.js:55-62 | an edit sets exactly the named draft field, clears the error and keeps every passed step valid |
| BookingForm.Wizard.HandleTravelerChange | frontend/src/components/BookingForm.js:64-71 | the roster becomes `UpdatedTraveler` of the old one; nothing else changes |
| BookingForm.Wizard.UpdateTravelersCount | frontend/src/components/BookingForm.js:73-104 | the count is set and the roster is resized to it; nothing else changes |
| BookingForm.Wizard.NextStep | frontend/src/components/BookingForm.js:106-171 | a step that validates advances (at most to 4) and keeps the old error; one that fails stays and shows its message |
| BookingForm.Wizard.PrevStep | frontend/src/components/BookingForm.js:173-176 | back one step, never below 1, clearing the error |
| BookingForm.Wizard.HandleSubmit | frontend/src/components/BookingForm.js:178-228 | nothing is sent unless step 3 validates; otherwise the payload is sent, success stores the response and shows step 4, failure shows the server's message or the fixed default; loading ends either way; all of this for a form the browser's own `required`/`type="email"` checks let through |
| BookingForm.SentPayloadShape | frontend/src/components/BookingForm.js:178-203 | every payload the wizard can send has 1..20 travelers, one record each, and a departure before the return |
| BookingModels.WithBookingId | travel_backend/bookings/models.py:26-30 | an empty booking id is filled with "TT" and eight digits; a booking that has an id keeps it; no other field changes |
| BookingModels.GeneratedIdFits | travel_backend/bookings/models.py:7-30 | a generated id is ten characters, within the column's 20 |
| BookingModels.OrderedNewestFirst | travel_backend/bookings/models.py:23-24 | the default ordering is a permutation of the rows, newest first |
| BookingModels.IndexOf | travel_backend/bookings/models.py:26-31 | the lookup by primary key finds a row holding the key, or reports that no row holds it |
| BookingModels.Store.constructor | travel_backend/bookings/models.py:5-21 | the tables start empty |
| BookingModels.Store.Save | travel_backend/bookings/models.py:26-31 | save fills the booking id, then updates the row with the same key or inserts a new row with the next key; a booking id another row holds breaks the unique constraint and nothing is written |
| BookingSerializers.Validate | travel_backend/bookings/serializers.py:41-54 | accepted iff the traveler list's length equals the count and the start is before the end; the count check comes first |
| BookingSerializers.NewBooking | travel_backend/bookings/serializers.py:56-69 | the booking belongs to the requester, costs unit price times travelers, and starts confirmed and pending payment with no booking id yet |
| BookingSerializers.TravelerRows | travel_backend/bookings/serializers.py:71-73 | one traveler row per submitted traveler, in order, each pointing at the booking |
| BookingSerializers.Create | travel_backend/bookings/serializers.py:56-75 | creation saves the booking, then appends its traveler rows; when the save fails nothing is written |
| BookingSerializers.TravelerRowsAppend | travel_backend/bookings/serializers.py:72-73 | the loop's rows for one more traveler are the earlier rows plus that traveler's row |
| BookingViews.UserBookingsScoped | travel_backend/bookings/views.py:17-18 | the list holds exactly the requester's bookings |
| BookingViews.WithContactEmail | travel_backend/bookings/views.py:26-28 | a missing contact e-mail is filled from the account's e-mail when that is not empty; a given one is never replaced |
| BookingViews.FieldErrors | travel_backend/bookings/views.py:30-36 | the field checks pass iff the destination exists, the contact name, e-mail and phone are not blank after stripping, and every traveler has its required fields |
| BookingViews.ParseTravelers | travel_backend/bookings/views.py:30-31 | every submitted traveler is parsed, in order |
| BookingViews.Parse | travel_backend/bookings/views.py:30-31 | the parsed data keeps the destination, dates, count and number of travelers of the request |
| BookingViews.CreateBooking | travel_backend/bookings/views.py:20-50 | field errors and then the serializer's checks give 400 and write nothing; a request that passes both is created, unless the generated booking id collides, which gives the unique-constraint 500; a created booking belongs to the requester, costs unit price times travelers and is appended with its traveler rows; a failed save gives 500 and writes nothing |
| BookingViews.FindOwned | travel_backend/bookings/views.py:64 | the lookup finds a booking with that key owned by the requester, or none exists |
| BookingViews.CancelAsWritten | travel_backend/bookings/views.py:63-91 | as written: the reply is the 500 with the lookup's message iff the requester owns no booking with that key; a rejected cancellation changes nothing and only a rejected one leaves the table as it was; a successful one returns the booking marked cancelled, which is in the new table |
| BookingViews.Cancel | travel_backend/bookings/views.py:61-91 | corrected: a missing booking or another user's gives 404; otherwise the same answers as written |
| BookingViews.CancelMissingIsServerError | travel_backend/bookings/views.py:63-91 | as written, cancelling another user's booking gives 500, where the corrected view gives 404 |
| BookingViews.CancelChangesOnlyStatus | travel_backend/bookings/views.py:64-85 | a cancellation succeeds iff the requester owns the booking and it is neither cancelled nor completed; an owned cancelled booking gets 400 'already cancelled', an owned completed one 400 'cannot cancel completed', and no owned booking with that key 404 (corrected); it sets that one booking's status to cancelled and leaves every other row alone; a refusal changes nothing |
| BookingViews.CancelTwice | travel_backend/bookings/views.py:66-70 | cancelling again right after a cancellation is refused as already cancelled |
| BookingViews.CancelBooking | travel_backend/bookings/views.py:59-91 | the corrected endpoint (see Findings): its reply and new table are those of `Cancel`, so a booking the requester does not own gives 404 where the code as written gives 500; the traveler table is untouched |
| BookingViews.BookingSummary | travel_backend/bookings/views.py:98-106 | the total is the number of the requester's bookings, and each status count is the number of the requester's bookings with that status (counted row by row by `Tally`) |
| BookingViews.CountsTally | travel_backend/bookings/views.py:98-106 | filtering the requester's bookings and then one status counts the same rows as the row-by-row tally |
| BookingViews.SummaryBounded | travel_backend/bookings/views.py:100-106 | the four status counts add up to at most the total, and to exactly the total iff every one of the requester's bookings has one of the four known statuses |
| ClientBookings.StatusCount | frontend/src/pages/MyBookings.jsx:148-149 | a status count never exceeds the number of bookings |
| ClientBookings.TwoStatusesBounded | frontend/src/pages/MyBookings.jsx:147-149 | the counts for two different statuses add up to at most the number of bookings |
| MyBookings.SortBookingsCorrect | frontend/src/pages/MyBookings.jsx:116-129 | every sort option only reorders; 'newest' and 'departure-later' sort descending and 'oldest' and 'departure-soon' ascending on their key; any other value keeps the order |
| MyBookings.VisibleExactly | frontend/src/pages/MyBookings.jsx:106-129 | a booking is shown iff it is in the list and matches both the search (destination name or booking id, ignoring case) and the status filter |
| MyBookings.StatsBounded | frontend/src/pages/MyBookings.jsx:147-149 | confirmed plus pending never exceeds the total |
| MyBookings.TotalSpentAdds | frontend/src/pages/MyBookings.jsx:150 | the total spent is additive over the list, and a booking without a truthy price adds nothing |
| MyBookings.StatusClass | frontend/src/pages/MyBookings.jsx:80-91 | the badge class is the pending or cancelled one exactly for those statuses (ignoring case); everything else, a missing status included, gets the confirmed class |
| MyBookings.StatusIconOf | frontend/src/pages/MyBookings.jsx:67-78 | the fallback icon is used exactly when the status is missing or not one of confirmed, pending, cancelled |
| MyBookings.PaymentStatusClass | frontend/src/pages/MyBookings.jsx:93-104 | the payment class is paid or failed exactly for those statuses; everything else gets the pending class |
| MyBookings.MappingsIgnoreCase | frontend/src/pages/MyBookings.jsx:68-94 | the three mappings give the same answer for a status and for its lower-case form |
| MyBookings.Page.constructor | frontend/src/pages/MyBookings.jsx:26-31 | the page starts empty and loading, with no search, filter 'all' and order 'newest' |
| MyBookings.Page.Mount | frontend/src/pages/MyBookings.jsx:33-65 | signed out, only the login message is set; signed in, an array reply becomes the list (anything else an empty list) and a failure keeps the list and shows "Error: " and the message; loading ends either way |
| MyBookings.Page.SetSearchTerm | frontend/src/pages/MyBookings.jsx:250 | sets the search term; nothing else changes |
| MyBookings.Page.SetStatusFilter | frontend/src/pages/MyBookings.jsx:256 | sets the status filter; nothing else changes |
| MyBookings.Page.SetSortBy | frontend/src/pages/MyBookings.jsx:267 | sets the sort order; nothing else changes |
| BookingsPage.Params | frontend/src/pages/Bookings.js:38 | no parameters exactly for the 'all' tab; otherwise a single status parameter naming the tab |
| BookingsPage.Tabs | frontend/src/pages/Bookings.js:156-161 | four tabs: 'all' counts every booking, each other tab counts the bookings with its status |
| BookingsPage.TabsBounded | frontend/src/pages/Bookings.js:156-161 | the three status tabs together never count more than the 'all' tab |
| BookingsPage.StatusColor | frontend/src/pages/Bookings.js:79-90 | green exactly for 'confirmed'; grey exactly for anything but the three known statuses (compared exactly, case included) |
| BookingsPage.StatusIcon | frontend/src/pages/Bookings.js:66-77 | the warning icon goes with exactly the statuses that get the grey badge |
| BookingsPage.Page.constructor | frontend/src/pages/Bookings.js:19-25 | the page starts empty and loading on the 'all' tab with no dialog open |
| BookingsPage.Page.LoadBookings | frontend/src/pages/Bookings.js:33-48 | sends the tab's parameters; a reply's `results` (or the reply itself) becomes the list; a failure keeps the list and shows the fixed message; loading ends |
| BookingsPage.Page.SelectTab | frontend/src/pages/Bookings.js:27-31 | choosing a tab sets the filter; a fetch with that tab's parameters happens iff the filter changed and the user is signed in, and otherwise rows, loading flag and error are untouched; a fetch's success replaces the rows and clears the error, its failure keeps the rows and sets the fixed message; the selection, the dialog and the reason are untouched |
| BookingsPage.Page.OpenCancel | frontend/src/pages/Bookings.js:286-291 | the cancel button, offered only for confirmed bookings, selects the booking and opens the dialog |
| BookingsPage.Page.SetCancelReason | frontend/src/pages/Bookings.js:324 | sets the reason; nothing else changes |
| BookingsPage.Page.KeepBooking | frontend/src/pages/Bookings.js:333-337 | closing the dialog clears the selection and the reason |
| BookingsPage.Page.HandleCancelBooking | frontend/src/pages/Bookings.js:50-64 | nothing is sent without a selection or with a reason that is blank after trimming; otherwise the id and reason are sent, success closes and clears the dialog and reloads, failure leaves everything as it was |
| BookingDetails.TravelersCount | frontend/src/pages/BookingDetails.js:113-123 | a truthy `travelers` decides by its type: a number is the count, an array its length, an object its key count or 1; otherwise the fallbacks are used |
| BookingDetails.FallbackCount | frontend/src/pages/BookingDetails.js:119-122 | guests wins when it is a non-zero number, then passengers, then number_of_travelers; with none of them given the count is 1, so it is never 0 |
| BookingDetails.DaysBetween | frontend/src/pages/BookingDetails.js:136-139 | the day count is the absolute difference rounded up to whole days |
| BookingDetails.DurationOf | frontend/src/pages/BookingDetails.js:125-146 | a truthy numeric duration is used as is; a duration string is parsed when it starts with a number and shown as given otherwise; any other text shown is either that string or 'N/A' |
| BookingDetails.DurationFromDates | frontend/src/pages/BookingDetails.js:134-141 | with no duration or days but both dates, the duration is a non-negative day count that does not depend on which date comes first |
| BookingDetails.FormatPrice | frontend/src/pages/BookingDetails.js:107-111 | a price is 'not available' exactly when it is falsy; a truthy number is shown as is; a truthy string keeps only digits, '.' and '-', drawn from the original; any other truthy value (`true`, an array, an object) is shown after '$' as itself |
| BookingDetails.CleanedKeepsNumberChars | frontend/src/pages/BookingDetails.js:109 | the cleaned string holds a character iff the original holds it and it is a digit, '.' or '-' |
| BookingDetails.StatusColour | frontend/src/pages/BookingDetails.js:61-75 | the neutral colour is used exactly when the status is missing or not one of the four known ones (ignoring case) |
| BookingDetails.StatusIconOf | frontend/src/pages/BookingDetails.js:77-91 | the information icon goes with exactly the neutral colour; the check icon with confirmed and completed |
| BookingDetails.MappingsIgnoreCase | frontend/src/pages/BookingDetails.js:62-78 | colour and icon are the same for a status and its lower-case form |
| BookingDetails.Page.constructor | frontend/src/pages/BookingDetails.js:29-31 | the page starts with no booking, loading, no error |
| BookingDetails.Page.Mount | frontend/src/pages/BookingDetails.js:33-59 | a booking passed with the navigation is shown without a fetch; otherwise a route id triggers a fetch, whose reply (or its `data`) is shown or whose failure shows the fixed message; without either the page says there is no information; loading ends |
| BookingDetails.Page.HandleCancelBooking | frontend/src/pages/BookingDetails.js:148-159 | a request is sent iff the user confirms, naming the booking's id (or its booking id); success marks the booking cancelled locally, failure changes nothing |
| BookingDetails.CancelledNotOffered | frontend/src/pages/BookingDetails.js:372 | once marked cancelled the cancel button is no longer offered |
| DestinationsPage.SafeStringMatchMeaning | frontend/src/pages/Destinations.jsx:82-85 | a missing or empty value never matches; otherwise the match is a case-insensitive substring test, and the empty term matches every non-empty value |
| DestinationsPage.PassesMeaning | frontend/src/pages/Destinations.jsx:140-195 | the filter chain keeps a destination iff it passes every active filter: search, category (unless 'all'), price range, minimum rating, difficulty and duration within one day |
| DestinationsPage.NoFiltersPassAll | frontend/src/pages/Destinations.jsx:140-195 | with the initial settings every destination is shown |
| DestinationsPage.BoundaryPriceInBothRanges | frontend/src/pages/Destinations.jsx:162-171 | a price of exactly $1,000 falls in both 'Under $1,000' and '$1,000 - $2,000' (the bounds are inclusive) |
| DestinationsPage.SortDestinationsPermutes | frontend/src/pages/Destinations.jsx:197-212 | every sort option only reorders; 'price-low' is ascending and 'price-high' descending by price, 'rating' descending by average rating, 'duration' ascending by days, 'newest' descending by creation time, and 'popularity' or any other value descending by review count (a missing key counts as 0) |
| DestinationsPage.VisibleExactly | frontend/src/pages/Destinations.jsx:140-215 | a destination is listed iff it is loaded and passes the filters, never more often than it was loaded |
| DestinationsPage.ChainedIsConjunction | frontend/src/pages/Destinations.jsx:140-195 | applying the filters one after another equals a single filter by their conjunction |
| DestinationsPage.TotalPages | frontend/src/pages/Destinations.jsx:223 | the page count is the number of results divided by 12, rounded up |
| DestinationsPage.PageItems | frontend/src/pages/Destinations.jsx:218-221 | a page holds at most 12 results, and a page past the last is empty |
| DestinationsPage.PagesCoverItems | frontend/src/pages/Destinations.jsx:218-223 | every result appears on exactly the page its index says, at the expected position |
| DestinationsPage.PageWindowShape | frontend/src/pages/Destinations.jsx:967-976 | the page buttons are min(5, pages) consecutive page numbers within range, and include the current page when that is in range |
| DestinationsPage.FavoritedIdRestored | frontend/src/pages/Destinations.jsx:272-276 | every id the status reply marks true ends up in the favourites set |
| DestinationsPage.Page.constructor | frontend/src/pages/Destinations.jsx:30-49 | the page starts empty and loading with no filters, 'popularity' order, no favourites, on page 1 |
| DestinationsPage.Page.FilteredAndSorted | frontend/src/pages/Destinations.jsx:140-215 | the step-by-step filtering and sorting computes exactly the page's result list |
| DestinationsPage.Page.FetchData | frontend/src/pages/Destinations.jsx:88-137 | the run records the start time and the dependencies it ran with; a reply's `results` (or the reply) becomes the list, a failure keeps the list and records the message; a `search` query parameter becomes the search term; afterwards the effect is not due for the same query string, though as written it is due again whenever the clock moved |
| DestinationsPage.Page.RefetchAfterTypingAsWritten | frontend/src/pages/Destinations.jsx:88-137 | as written: after a fetch and a typed term the effect is due again, and its next run puts the address's `search` back in place of the typed term |
| DestinationsPage.Page.TypingAfterFetch | frontend/src/pages/Destinations.jsx:88-137 | as intended: after a fetch and a typed term the effect is not due, so the typed term stays and the page is 1 |
| DestinationsPage.Page.HandleSearchChange | frontend/src/pages/Destinations.jsx:231-234 | sets the search term and goes back to page 1 |
| DestinationsPage.Page.HandleCategoryChange | frontend/src/pages/Destinations.jsx:226-229 | sets the category and goes back to page 1 |
| DestinationsPage.Page.SetAdvancedFilters | frontend/src/pages/Destinations.jsx:790-856 | the advanced filters change only themselves; the current page is kept |
| DestinationsPage.Page.SetSortBy | frontend/src/pages/Destinations.jsx:686 | sets the order; filters and page are kept |
| DestinationsPage.Page.PreviousPage | frontend/src/pages/Destinations.jsx:958-959 | the enabled previous button goes back one page |
| DestinationsPage.Page.NextPage | frontend/src/pages/Destinations.jsx:997-998 | the enabled next button goes forward one page, never past the last |
| DestinationsPage.Page.GoToPage | frontend/src/pages/Destinations.jsx:967-982 | a page button goes to its page, which is never past the last |
| DestinationsPage.Page.ClearAllFilters | frontend/src/pages/Destinations.jsx:289-298 | every filter is reset, the order is 'popularity' and the page is 1 |
| DestinationsPage.Page.ToggleFavorite | frontend/src/pages/Destinations.jsx:236-260 | signed out, the visitor is sent to the sign-in page; a successful reply adds or removes the id as the server says; anything else changes nothing |
| DestinationsPage.Page.LoadFavoritesStatus | frontend/src/pages/Destinations.jsx:263-287 | the ids of the loaded destinations are asked about iff signed in and the list is not empty; a successful reply replaces the favourites with the ids marked true |
| DestinationsPage.ToggleTouchesOnlyId | frontend/src/pages/Destinations.jsx:246-254 | toggling one destination leaves every other id's favourite state alone |
| FavoritesPage.WithoutIdExactly | frontend/src/pages/Favorites.jsx:64 | removing a favourite keeps exactly the entries with another id, in order; it distributes over concatenation and changes nothing when the id is absent |
| FavoritesPage.WithoutListExactly | frontend/src/pages/Favorites.jsx:87 | deleting a list keeps exactly the lists with another id |
| FavoritesPage.PreviewItems | frontend/src/pages/Favorites.jsx:427-429 | the preview is the first three of the list's destinations (all of them when fewer) |
| FavoritesPage.OverflowBadge | frontend/src/pages/Favorites.jsx:426-443 | the "+n" badge shows exactly when the list has destinations and its count exceeds three, and n is the count minus three, always positive |
| FavoritesPage.Page.constructor | frontend/src/pages/Favorites.jsx:21-27 | the page starts empty and loading with the create form closed and blank |
| FavoritesPage.Page.LoadFavorites | frontend/src/pages/Favorites.jsx:36-49 | a successful reply's favourites (or none) replace the list; an unsuccessful one changes nothing; a failure sets the fixed error; loading ends |
| FavoritesPage.Page.LoadFavoriteLists | frontend/src/pages/Favorites.jsx:51-58 | a reply replaces the lists; a failure keeps them |
| FavoritesPage.Page.HandleRemoveFavorite | frontend/src/pages/Favorites.jsx:60-69 | the favourite is removed locally only when the server says the toggle succeeded and it is no longer a favourite |
| FavoritesPage.Page.OpenCreateList | frontend/src/pages/Favorites.jsx:312 | opens the create form, keeping what was typed |
| FavoritesPage.Page.EditNewList | frontend/src/pages/Favorites.jsx:347-358 | sets the form's fields; nothing else changes |
| FavoritesPage.Page.HandleCreateList | frontend/src/pages/Favorites.jsx:71-81 | the form is sent; the created list is appended, the form emptied and closed; a failure changes nothing |
| FavoritesPage.Page.HandleDeleteList | frontend/src/pages/Favorites.jsx:83-93 | a request is made iff the user confirms; the list is dropped locally only after the request succeeds |
| FavoriteSerializers.ValidateDestinationId | travel_backend/favorites/serializers.py:61-71 | the id is accepted iff it is sent and names an existing destination; a missing id is "This field is required.", an unknown one "Destination not found" |
| FavoriteSerializers.ValidateDestinationIds | travel_backend/favorites/serializers.py:73-86 | the list, empty or not, is accepted iff every id names a destination; a refusal carries exactly the unknown ids, and there is at least one |
| FavoriteSerializers.ListViews | travel_backend/favorites/serializers.py:41-59 | the detail holds exactly the list's items, newest first (the item model's ordering); the list view shows its first three; the count is every item, so it exceeds the preview exactly when there are more than three |
| FavoriteSerializers.CreateFavorite | travel_backend/favorites/serializers.py:15-17 | a created favourite belongs to the requester, whatever the request said |
| FavoriteSerializers.CreateList | travel_backend/favorites/serializers.py:49-51 | a created list belongs to the requester, whatever the request said |
| FavoriteViews.ToggledMembership | travel_backend/favorites/views.py:30-41 | toggling flips whether this user favours this destination and leaves every other (user, destination) pair as it was |
| FavoriteViews.ToggleTwice | travel_backend/favorites/views.py:30-41 | toggling twice restores every favourite state |
| FavoriteViews.ToggledDistinct | travel_backend/favorites/views.py:30-41 | toggling keeps one row per (user, destination), as the unique constraint demands |
| FavoriteViews.CheckStatus | travel_backend/favorites/views.py:52-81 | invalid ids are refused with exactly those ids; otherwise the map has exactly the asked ids as keys, each true iff the requester favours it |
| FavoriteViews.FindList | travel_backend/favorites/views.py:172 | the lookup finds a list with that id owned by the requester, or none exists |
| FavoriteViews.FindListFinds | travel_backend/favorites/views.py:172 | the lookup succeeds exactly when the requester owns a list with that id |
| FavoriteViews.ListingsScoped | travel_backend/favorites/views.py:91-92 | the favourites listing and the lists listing hold exactly the requester's rows |
| FavoriteViews.AddOutcomeMeaning | travel_backend/favorites/views.py:164-202 | the item table changes iff the addition succeeds, and then exactly the new item with its notes is appended; a list the requester does not own is not found; a missing or zero id is refused iff the list was found; an unsuccessful answer is a 400 for an item already in the list |
| FavoriteViews.RemoveOutcomeMeaning | travel_backend/favorites/views.py:210-235 | a successful removal drops exactly that list's item for the destination and nothing else; otherwise nothing changes, and a missing item in an owned list is 404 "Destination not found in this list" |
| FavoriteViews.AddThenRemove | travel_backend/favorites/views.py:186-225 | removing what was just added gives back the item table |
| FavoriteViews.AddOutcomeDistinct | travel_backend/favorites/views.py:186-190 | an addition keeps one item per (list, destination) |
| FavoriteViews.Store.constructor | travel_backend/favorites/views.py:1-14 | the tables start empty over a fixed destination table |
| FavoriteViews.Store.Toggle | travel_backend/favorites/views.py:16-48 | an invalid id is refused with the serializer's message and changes nothing; otherwise the favourites become `Toggled` of the old ones and the reply says whether it is now a favourite, with "Added X to favorites" or "Removed X from favorites" |
| FavoriteViews.Store.AddToList | travel_backend/favorites/views.py:164-208 | the reply and the new item table are those of `AddOutcome`; lists and favourites are untouched; uniqueness is kept |
| FavoriteViews.Store.RemoveFromList | travel_backend/favorites/views.py:210-235 | the reply and the new item table are those of `RemoveOutcome`; lists and favourites are untouched |
| FavoriteViews.Store.CreateFavoriteList | travel_backend/favorites/views.py:136-148 | a list is created iff the requester has no list of that name; a new list belongs to the requester and is appended with a fresh id; a name the requester already uses breaks the unique constraint and nothing is written |
| FavoriteViews.Store.DestroyList | travel_backend/favorites/views.py:150-162 | a list is found exactly when FindList finds it among the requester's own lists; deleting it removes the list and, by cascade, its items; otherwise nothing changes |
| DestinationSerializers.MainImageUrlPrecedence | travel_backend/destinations/serializers.py:27-58 | an upload wins, made absolute when there is a request; otherwise a name with its own picture gets it; otherwise the category's picture by lower-case name, and the adventure picture for a missing or unknown category; without an upload the address is never empty |
| DestinationSerializers.MainImageUrlIgnoresCategoryCase | travel_backend/destinations/serializers.py:57-58 | the category's case does not change the picture |
| DestinationSerializers.Serialize | travel_backend/destinations/serializers.py:9-68 | the serialized destination carries the picture address twice (main and compatibility field), a rating of 4.5 and 42 reviews for every destination, and the row's id, name and category name |
| DestinationViews.ListQuerysetMeaning | travel_backend/destinations/views.py:13-29 | a row is listed iff it passes the category filter (when a non-empty category is given) and the search over name, city, country and short description (when a non-empty search is given); the list is newest first, and without filters it is a permutation of all rows |
| DestinationViews.FeaturedDestinationsMeaning | travel_backend/destinations/views.py:36-43 | at most six rows, all featured, newest first; six whenever there are six featured rows, and all of them when there are fewer |
| DestinationViews.SearchIsListPrefix | travel_backend/destinations/views.py:66-83 | an empty query finds nothing; otherwise the results are the first ten (or all, when fewer) of the list endpoint's answer to the same search |
| ContactForm.NameError | frontend/src/pages/Contact.jsx:52-56 | a name blank after trimming is required, a non-blank one shorter than two characters (counted untrimmed) is too short, and only those fail |
| ContactForm.EmailError | frontend/src/pages/Contact.jsx:58-62 | a blank address is required, a non-blank one that is not `local@domain.tld` without spaces or extra '@' is invalid, and the field passes iff the pattern matches |
| ContactForm.PhoneError | frontend/src/pages/Contact.jsx:64-66 | the phone passes iff it is empty or, with all white space removed, is an optional '+', a digit 1-9 and at most 15 more digits |
| ContactForm.SubjectError | frontend/src/pages/Contact.jsx:68-72 | a blank subject is required, a non-blank one under five characters is too short, and only those fail |
| ContactForm.MessageError | frontend/src/pages/Contact.jsx:74-80 | a blank message is required, under ten characters too short, over 1000 too long; it passes iff it is not blank and has 10 to 1000 characters |
| ContactForm.ErrorMapEntries | frontend/src/pages/Contact.jsx:49-80 | the error object holds exactly one entry per failing field, with that field's message |
| ContactForm.FormErrorsEmptyIffValid | frontend/src/pages/Contact.jsx:82-83 | the form validates iff the error object is empty; only the five validated fields can appear in it |
| ContactForm.DefaultFormInvalid | frontend/src/pages/Contact.jsx:20-80 | the empty form fails on name, e-mail, subject and message, not on the optional phone |
| ContactForm.BuildErrors | frontend/src/pages/Contact.jsx:49-81 | the step-by-step construction yields exactly the error object of the form |
| ContactForm.Page.constructor | frontend/src/pages/Contact.jsx:20-33 | the page starts with the empty form, no errors, not submitting, not submitted |
| ContactForm.Page.ValidateForm | frontend/src/pages/Contact.jsx:49-84 | stores the form's error object and answers whether it is empty |
| ContactForm.Page.EditText | frontend/src/pages/Contact.jsx:86-100 | sets the named field and clears that field's error only |
| ContactForm.Page.EditNewsletter | frontend/src/pages/Contact.jsx:86-100 | the checkbox stores `checked` and clears its own error only |
| ContactForm.Page.HandleSubmit | frontend/src/pages/Contact.jsx:102-156 | an invalid form is never sent and shows its errors; a sent form ends not submitting; success resets the form and marks it submitted; anything else keeps the form, marks an error and shows the errors the server or the exception carried; all of this for a form the browser's own `required`/`type="email"` checks let through |
| ContactForm.ServerErrors | frontend/src/pages/Contact.jsx:138-150 | the errors shown after a rejection are those the reply or the exception carried, and the current ones otherwise |
| ContactModels.NewContact | travel_backend/contacts/models.py:23-36 | a new submission gets the next id and the current time, status 'pending', category 'general' when none was given, newsletter only when it was set true, no response time and empty notes |
| ContactModels.NewContactDefaults | travel_backend/contacts/models.py:7-32 | the defaults are the first category choice, no newsletter and the first status choice |
| ContactModels.RespondedTwice | travel_backend/contacts/models.py:46-50 | marking responded twice is the same as marking it once at the later time, and the status stays a declared choice |
| ContactModels.OrderedNewestFirst | travel_backend/contacts/models.py:38-39 | the default ordering is a permutation, newest first |
| ContactModels.ContactTable.constructor | travel_backend/contacts/models.py:4-36 | the table starts empty |
| ContactModels.ContactTable.Insert | travel_backend/contacts/models.py:23-36 | the new row is `NewContact` with the next id, appended |
| ContactModels.ContactTable.MarkResponded | travel_backend/contacts/models.py:46-50 | only that row changes: status 'resolved' and a response time |
| ContactSerializers.ValidateEmail | travel_backend/contacts/serializers.py:15-19 | an empty address is refused as required; otherwise it is stored lower-cased |
| ContactSerializers.AtLeastStripped | travel_backend/contacts/serializers.py:21-37 | a value is refused iff it is empty or shorter than the minimum after stripping; an accepted value is stored stripped |
| ContactSerializers.StrippedHasNoOuterSpace | travel_backend/contacts/serializers.py:25-37 | an accepted value neither starts nor ends with white space |
| ContactSerializers.PhoneDigits | travel_backend/contacts/serializers.py:43-44 | the cleaned phone holds only characters of the original other than spaces, dashes, parentheses and '+' |
| ContactSerializers.ValidatePhone | travel_backend/contacts/serializers.py:39-46 | a phone is refused iff it is given, not empty, and not all digits once cleaned; an accepted phone is stored as it reached the validator |
| ContactSerializers.ValidateMeaning | travel_backend/contacts/serializers.py:15-46 | every text field is stripped (the framework's `trim_whitespace`) before its validator runs; a submission is refused iff one of name, e-mail, phone, subject, message then fails, and the error dictionary is then not empty (a blank e-mail is reported as required); an accepted one is stored stripped, with the e-mail lower-cased, a blank phone stored empty, and category and newsletter untouched |
| ContactSerializers.ValidateIdempotent | travel_backend/contacts/serializers.py:15-46 | validating what was stored accepts it unchanged |
| ContactViews.SubmitContactForm | travel_backend/contacts/views.py:16-58 | invalid data gives 400 with the errors and stores nothing; valid data is stored and answered 201 with the new id, whatever happens to the notification mails; a failing insert gives 500 and stores nothing; success holds exactly for 201 |
| ContactViews.WantedMembers | travel_backend/contacts/views.py:185-198 | a submission is listed iff it is stored and matches the status and category when those parameters are given and not empty |
| ContactViews.StepsAreOneFilter | travel_backend/contacts/views.py:189-196 | filtering by status and then by category equals one filter by both |
| ContactViews.GetQueryset | travel_backend/contacts/views.py:185-198 | the step-by-step query set equals the one-filter specification, and is all submissions newest first without parameters |
| Patterns.AnchoredEmailShape | frontend/src/pages/Contact.jsx:60 | an address the anchored pattern accepts has no white space and exactly one '@', neither first nor last |
| Patterns.LooseEmailError | frontend/src/components/Auth/Login.js:57-61 | an empty address is required, a non-empty one without a match of the unanchored pattern is invalid, and it passes iff the pattern matches somewhere |
| Patterns.AnchoredImpliesLoose | frontend/src/components/Auth/Register.js:61 | every address the contact form accepts is accepted by the sign-in and registration forms |
| Patterns.LooseAcceptsMore | frontend/src/components/Auth/Register.js:61 | the unanchored pattern accepts addresses with a prefix before a space or with two '@' that the anchored one refuses |
| RegisterForm.MixedClassesOneLine | frontend/src/components/Auth/Register.js:69 | on a password without line breaks the three look-aheads hold iff it has a lower-case letter, an upper-case letter and a digit |
| RegisterForm.MixedClassesNeedOneLine | frontend/src/components/Auth/Register.js:69 | the look-aheads cannot reach across a line break: "aB\n1" fails where "aB1" passes |
| RegisterForm.NameError | frontend/src/components/Auth/Register.js:51-57 | a first or last name fails iff it is blank after trimming, with its own message |
| RegisterForm.PasswordError | frontend/src/components/Auth/Register.js:65-71 | required iff empty, too short iff 1 to 7 characters, too weak iff at least 8 without the three character classes, and passes iff long enough and mixed |
| RegisterForm.ConfirmError | frontend/src/components/Auth/Register.js:73-77 | required iff empty, different iff non-empty and unequal, passes iff it equals the password and is not empty |
| RegisterForm.TermsError | frontend/src/components/Auth/Register.js:79-81 | fails iff the terms are not accepted |
| RegisterForm.ErrorMapEntries | frontend/src/components/Auth/Register.js:48-83 | the error object holds one entry per failing check, with its message, and nothing else |
| RegisterForm.FormErrorsMeaning | frontend/src/components/Auth/Register.js:48-85 | the form validates iff no check fails; only the six checked fields can carry errors; unaccepted terms and a differing confirmation are reported with their messages |
| RegisterForm.Username | frontend/src/components/Auth/Register.js:94 | the user name is the first name's characters that are not white space, then the last name's, in order and lower-cased; so it holds no white space and is no longer than the two names together |
| RegisterForm.UsernameOfPlainNames | frontend/src/components/Auth/Register.js:94 | for names without white space the user name is their lower-cased concatenation |
| RegisterForm.Payload | frontend/src/components/Auth/Register.js:93-100 | the request carries the derived user name, the e-mail, both passwords and both names as typed |
| RegisterForm.BuildErrors | frontend/src/components/Auth/Register.js:48-83 | the step-by-step construction yields exactly the form's error object |
| RegisterForm.Page.constructor | frontend/src/components/Auth/Register.js:17-28 | the page starts with the empty form and no errors |
| RegisterForm.Page.ValidateForm | frontend/src/components/Auth/Register.js:48-85 | stores the form's error object and answers whether the form is valid |
| RegisterForm.Page.EditText | frontend/src/components/Auth/Register.js:30-46 | sets exactly the named field, blanks only that field's error, and asks to clear the session error iff there is one |
| RegisterForm.Page.EditTerms | frontend/src/components/Auth/Register.js:30-46 | the checkbox stores `checked`, blanks only its own error, and asks to clear the session error iff there is one |
| RegisterForm.Page.HandleSubmit | frontend/src/components/Auth/Register.js:87-112 | a request is sent iff the form is valid, and it is the form's payload; only a successful registration goes to the sign-in page with the notice; all of this for a form the browser's own `required`/`type="email"` checks let through |
| LoginForm.PasswordError | frontend/src/components/Auth/Login.js:63-67 | required iff empty, too short iff 1 to 5 characters, passes iff at least six |
| LoginForm.FormErrorsMeaning | frontend/src/components/Auth/Login.js:54-71 | the form validates iff the address matches the loose pattern and the password has six characters; only e-mail and password can carry errors, with the "required" messages for empty fields |
| LoginForm.RedirectTarget | frontend/src/components/Auth/Login.js:20 | a non-empty path the visitor came from is the target, "/" otherwise |
| LoginForm.Page.constructor | frontend/src/components/Auth/Login.js:12-20 | the page starts with the empty form, no errors, and the redirect target of where the visitor came from |
| LoginForm.Page.ValidateForm | frontend/src/components/Auth/Login.js:54-71 | stores the form's error object and answers whether both checks pass |
| LoginForm.Page.EditText | frontend/src/components/Auth/Login.js:36-52 | sets exactly the named field, blanks only its error, and asks to clear the session error iff there is one |
| LoginForm.Page.EditRememberMe | frontend/src/components/Auth/Login.js:36-52 | the checkbox stores `checked`, blanks only its own error, and asks to clear the session error iff there is one |
| LoginForm.Page.HandleSubmit | frontend/src/components/Auth/Login.js:73-90 | credentials are sent iff both checks pass, and they are the typed e-mail and password; all of this for a form the browser's own `required`/`type="email"` checks let through |
| LoginForm.Page.RedirectIfSignedIn | frontend/src/components/Auth/Login.js:22-27 | a signed-in visitor is sent to the redirect target, and nobody else moves |
| AuthContext.SignedIn | frontend/src/components/Auth/AuthContext.js:68-71 | signing in writes the access token, refresh token and user and leaves every other stored entry as it was |
| AuthContext.RestoreFrom | frontend/src/components/Auth/AuthContext.js:37-52 | the app signs in on start exactly when a token and a user are stored and the user entry parses, and then the user is the parsed value (even `null`) and storage is kept; an entry that does not parse removes exactly the three session entries and signs nobody in; without both entries nothing changes |
| AuthContext.RestoreAfterSignIn | frontend/src/components/Auth/AuthContext.js:37-74 | a reload after a sign-in with a non-empty token restores exactly that user and keeps storage |
| AuthContext.RestoreNeedsToken | frontend/src/components/Auth/AuthContext.js:41 | an empty stored token signs nobody in on reload |
| AuthContext.RestoreAfterSignOut | frontend/src/components/Auth/AuthContext.js:37-101 | a reload after signing out signs nobody in and changes nothing |
| AuthContext.ErrorMessage | frontend/src/components/Auth/AuthContext.js:82-85 | the shown message is the first non-empty of `detail`, `error`, `message` of the response body; with none of them it is the body's JSON text where the handler uses it, else the fallback; without a response it is the fallback, and it is never empty unless the fallback is |
| AuthContext.UpdateFallbackOnlyWithoutResponse | frontend/src/components/Auth/AuthContext.js:182-186 | when the profile update got a response with a body, the default message is never shown: it is the same field the sign-in message would show, or, when the body has none of them, the body's JSON text |
| AuthContext.CleanedMeaning | frontend/src/components/Auth/AuthContext.js:151-162 | the update payload holds exactly the fields other than id, username, email and date_joined whose value is not '', null or undefined, unchanged; 0 and false are kept |
| AuthContext.CleanedIdempotent | frontend/src/components/Auth/AuthContext.js:151-162 | cleaning a cleaned payload changes nothing |
| AuthContext.Session.constructor | frontend/src/components/Auth/AuthContext.js:30-34 | the session starts with no user, signed out, not loading, without error, over the storage the browser kept |
| AuthContext.Session.Restore | frontend/src/components/Auth/AuthContext.js:37-52 | the start-up effect gives exactly the user, sign-in flag and storage of `RestoreFrom` |
| AuthContext.Session.Login | frontend/src/components/Auth/AuthContext.js:54-92 | loading ends; a successful sign-in stores tokens and user and signs in without error; a refusal keeps the session, shows and throws the message of the response or the sign-in fallback |
| AuthContext.Session.Register | frontend/src/components/Auth/AuthContext.js:103-138 | the same as sign-in, with the registration fallback message |
| AuthContext.Session.Logout | frontend/src/components/Auth/AuthContext.js:94-101 | the three session entries are removed and the session has no user, is signed out and has no error |
| AuthContext.Session.ClearError | frontend/src/components/Auth/AuthContext.js:140-142 | only the error is cleared |
| AuthContext.Session.Clean | frontend/src/components/Auth/AuthContext.js:151-162 | the loop builds exactly the cleaned payload |
| AuthContext.Session.UpdateUser | frontend/src/components/Auth/AuthContext.js:144-193 | the cleaned payload is sent; success stores and sets the returned user without error; a refusal keeps user and storage and shows and throws the message with the JSON fallback; loading ends and the sign-in flag never changes |
| ProfileSettings.FieldText | frontend/src/pages/ProfileSettings.jsx:38-48 | a missing field shows as empty, a text field as its text |
| ProfileSettings.FromUser | frontend/src/pages/ProfileSettings.jsx:35-51 | the form has exactly the eleven profile fields, each the user's text for it |
| ProfileSettings.FromEmptyUser | frontend/src/pages/ProfileSettings.jsx:21-51 | an empty user gives the initial form |
| ProfileSettings.SavePayload | frontend/src/pages/ProfileSettings.jsx:61-65 | saving the form sends exactly its non-empty fields other than e-mail, with their text |
| ProfileSettings.Initials | frontend/src/pages/ProfileSettings.jsx:97-99 | at most two characters, empty iff both names are, the upper-cased first letters of the names that are not empty |
| ProfileSettings.Page.constructor | frontend/src/pages/ProfileSettings.jsx:17-33 | the page starts with the empty form, not editing, not loading |
| ProfileSettings.Page.Sync | frontend/src/pages/ProfileSettings.jsx:35-51 | with a user the form becomes that user's fields; without one it is kept |
| ProfileSettings.Page.StartEditing | frontend/src/pages/ProfileSettings.jsx:142 | only the editing flag changes |
| ProfileSettings.Page.HandleInputChange | frontend/src/pages/ProfileSettings.jsx:53-59 | only the named field of the form changes |
| ProfileSettings.Page.HandleSave | frontend/src/pages/ProfileSettings.jsx:61-76 | the form is kept and loading ends; editing ends iff the update succeeded, which sets the session's user; a failure shows the update's message |
| ProfileSettings.Page.HandleCancel | frontend/src/pages/ProfileSettings.jsx:78-95 | the form is refilled from the user when there is one, and editing ends |
| Navbar.Navigation | frontend/src/components/Navbar.js:61-67 | four public links for everybody, and the bookings link fifth only when signed in |
| Navbar.AtMostOneActive | frontend/src/components/Navbar.js:61-71 | no two links are active at once, and a signed-out visitor on the bookings path sees none active |
| Navbar.Bar.constructor | frontend/src/components/Navbar.js:17-19 | both menus start closed and the search box empty |
| Navbar.Bar.EditSearch | frontend/src/components/Navbar.js:156 | typing sets only the search text |
| Navbar.Bar.HandleSearch | frontend/src/components/Navbar.js:78-84 | a blank query does nothing; another goes to the destinations page with the trimmed query and empties the box; the menus are untouched |
| Navbar.Bar.RouteChanged | frontend/src/components/Navbar.js:56-59 | a route change closes both menus and keeps the search text |
| Navbar.Bar.ToggleMenu | frontend/src/components/Navbar.js:282 | only the mobile menu flag flips |
| Navbar.Bar.ToggleUserMenu | frontend/src/components/Navbar.js:193 | only the user menu flag flips |
| Navbar.Bar.HandleLogout | frontend/src/components/Navbar.js:73-76 | the session signs out and drops its stored entries, and the user menu closes |
| UserModels.IdText | travel_backend/users/models.py:8 | a saved key is written in decimal, an unsaved one as "None" |
| UserModels.ProfilePicturePath | travel_backend/users/models.py:6-8 | the upload path starts with the picture folder and ends with the whole file name |
| UserModels.ProfilePicturePathParts | travel_backend/users/models.py:8 | between the folder and the file name stand exactly the key's text and one '/' |
| UserModels.ProfilePicturePathInjective | travel_backend/users/models.py:6-8 | for one file name, different keys give different paths |
| UserModels.AppendUnique | travel_backend/users/models.py:11-31 | a row under the next key whose address and user name are new keeps keys, addresses and user names unique |
| UserModels.FindByEmail | travel_backend/users/models.py:11-30 | the lookup by address finds a row holding it, and finds none iff nobody has it |
| UserModels.FindByEmailUnique | travel_backend/users/models.py:11 | with unique addresses the row found is the only one with that address |
| UserViews.MissingMeaning | travel_backend/users/views.py:38-39 | the missing list holds exactly the required fields not sent or empty, and is empty iff all six were given |
| UserViews.RegisterRejectionMeaning | travel_backend/users/views.py:38-83 | a registration passes every check iff all six fields are given, the passwords agree and have six characters, and neither address nor user name is taken; differing passwords are reported as such once nothing is missing |
| UserViews.MissingFieldsFirst | travel_backend/users/views.py:38-46 | a missing field is always reported as missing, whatever else is wrong |
| UserViews.LoginOutcomes | travel_backend/users/views.py:129-198 | for a registered address, 200 with that user iff the password is right and the account active, "disabled" iff right and inactive, and the answer does not depend on what `authenticate` returned |
| UserViews.LoginStatuses | travel_backend/users/views.py:129-198 | every sign-in answer is 200, 400 or 401; 400 "Email and password are required" exactly when either is missing or empty; 200 only for a registered address |
| UserViews.LoginUnknownAddress | travel_backend/users/views.py:141-170 | an address nobody registered is refused with 401 "Invalid credentials" |
| UserViews.UserTable.constructor | travel_backend/users/models.py:10-31 | the table starts empty with key 1 next, and unique |
| UserViews.UserTable.Register | travel_backend/users/views.py:32-124 | a refused registration answers 400 with the reason and adds nothing; a failing insert answers 500 with "Registration failed: " and the error text and adds nothing; otherwise exactly the new user is added and answered 201; the table stays unique |
| UserViews.UserTable.Insert | travel_backend/users/views.py:88-94 | the row is appended under the next key and the table stays unique |
| UserViews.UserTable.Check | travel_backend/users/views.py:38-83 | the checks in order give exactly the specified rejection, and a pass means address and user name are free |
| DestinationCard.FallbackIndex | frontend/src/components/DestinationCard.js:44-48 | the fallback picture is chosen by the id modulo eight, else by the name's length modulo eight, else the first |
| DestinationCard.PictureOf | frontend/src/components/DestinationCard.js:106-107 | after a load error the fallback is shown; otherwise the first non-empty of `image_url`, `image`, `main_image_url`, else the fallback; an address shown is never empty |
| DestinationCard.DisplayFeatures | frontend/src/components/DestinationCard.js:92-93 | at most three features, a prefix of the destination's, three whenever it has three or more, none when it has none |
| DestinationCard.DisplayPriceIsUnitPrice | frontend/src/components/DestinationCard.js:147-198 | the card shows the same unit price as the booking form, 1299 when neither price is set |
| DestinationCard.Card.constructor | frontend/src/components/DestinationCard.js:28-32 | the card starts not loaded, without error and with the booking form hidden |
| DestinationCard.Card.HandleImageLoad | frontend/src/components/DestinationCard.js:34-36 | only the loaded flag is set |
| DestinationCard.Card.HandleImageError | frontend/src/components/DestinationCard.js:38-41 | the picture is marked failed and loaded, and the fallback is shown from then on |
| DestinationCard.Card.HandleBookNow | frontend/src/components/DestinationCard.js:72-80 | a signed-out visitor is alerted and nothing opens; a signed-in one opens the booking form |
| DestinationCard.Card.CloseBookingForm | frontend/src/components/DestinationCard.js:82-90 | the booking form closes and nothing else changes |
| DestinationCard.Card.HandleLike | frontend/src/components/DestinationCard.js:50-55 | the parent's handler is called with this destination's id iff one was given |
| DestinationDetail.FallbackIndex | frontend/src/pages/DestinationDetail.js:154-157 | the fallback is chosen by the id modulo six, the first for id 0 |
| DestinationDetail.DisplayImages | frontend/src/pages/DestinationDetail.js:197-199 | at least one picture: the gallery when it is not empty, the main image when there is no gallery, and the fallback exactly when neither gives an address |
| DestinationDetail.EmptyGalleryHidesMainImage | frontend/src/pages/DestinationDetail.js:197 | an empty gallery shows the fallback even when a main image exists |
| DestinationDetail.StatusOf | frontend/src/pages/DestinationDetail.js:109 | the destination is a favourite iff the status map has its id and says true |
| DestinationDetail.Page.constructor | frontend/src/pages/DestinationDetail.js:37-44 | the page starts loading, with no destination, no error, not a favourite, the booking modal closed |
| DestinationDetail.Page.Load | frontend/src/pages/DestinationDetail.js:51-83 | loading ends; a loaded destination is shown; there is no error iff both the destination and the reviews loaded, and the error is the fixed message |
| DestinationDetail.Page.ToggleFavorite | frontend/src/pages/DestinationDetail.js:85-100 | a signed-out visitor goes to the sign-in page and nothing is sent; otherwise only a successful answer sets the favourite flag, to what the server says |
| DestinationDetail.Page.LoadFavoriteStatus | frontend/src/pages/DestinationDetail.js:103-114 | asks only when signed in and a destination is shown; only a successful answer sets the flag, from the status map |
| DestinationDetail.Page.HandleBookNow | frontend/src/pages/DestinationDetail.js:145-151 | a signed-out visitor goes to the sign-in page carrying this destination's path; a signed-in one opens the booking modal |
| HeroSection.QueryMeaning | frontend/src/components/Home/HeroSection.js:20-28 | the query has `search`, `date_from`, `date_to` exactly for the non-empty fields, in that order, never `guests`, and no empty value |
| HeroSection.Hero.constructor | frontend/src/components/Home/HeroSection.js:13-18 | the form starts empty with one guest |
| HeroSection.Hero.HandleInputChange | frontend/src/components/Home/HeroSection.js:30-32 | only the named field changes; guests take the integer parse of the text |
| HeroSection.Hero.HandleSearch | frontend/src/components/Home/HeroSection.js:20-28 | goes to the destinations page with the form's query |
| CrossLayer.UsernameNotEmpty | frontend/src/components/Auth/Register.js:51-53 | a first name that is not blank gives a non-empty user name |
| CrossLayer.LooseEmailNotEmpty | frontend/src/components/Auth/Register.js:61 | an address the forms accept is not empty |
| CrossLayer.FilledRequestMissesNothing | travel_backend/users/views.py:38-39 | a request with all six fields non-empty misses none |
| CrossLayer.ValidFormRequestComplete | frontend/src/components/Auth/Register.js:93-99 | what a valid registration form sends has all six fields, equal passwords of at least six characters and the typed address |
| CrossLayer.ClientRegistrationPassesServerChecks | travel_backend/users/views.py:38-83 | the server can refuse a registration the form let through only because the address or the user name is taken |
| CrossLayer.PasswordLengthGap | frontend/src/components/Auth/Register.js:67 | every password the form accepts is long enough for the server, and a six-character one the server takes is refused by the form |
| CrossLayer.MessageCapOnlyInClient | frontend/src/pages/Contact.jsx:78 | a 1001-character message is refused by the contact form and accepted by the server |
| CrossLayer.WhitespaceGap | travel_backend/contacts/serializers.py:33-37 | a message of nine U+001C and a letter passes the form and is refused by the server as too short |
| CrossLayer.TabInPhoneOnlyClientAccepts | travel_backend/contacts/serializers.py:39-46 | a phone with a tab passes the form and is refused by the server |
| CrossLayer.ParenthesesOnlyServerAccepts | frontend/src/pages/Contact.jsx:64-66 | a phone with parentheses is refused by the form and accepted by the server |
| CrossLayer.PopularityOrderIsArrivalOrder | travel_backend/destinations/serializers.py:67-68 | with every review count fixed at 42, the client's popularity order keeps the order the list arrived in |
| CrossLayer.CategoryOnlyInClientSearch | travel_backend/destinations/views.py:21-27 | a destination found only through its category matches the client's search and not the server's |
| CrossLayer.BookNowReturnsAfterSignIn | frontend/src/components/Auth/Login.js:20-27 | the navigation that the detail page's Book Now gives while signed out, read by the sign-in page built from it, sends the signed-in visitor to that destination's page |
| AuthContext.Session.SignIn | frontend/src/components/Auth/AuthContext.js:54-138 | the shared shape of sign-in and registration: success stores tokens and user and signs in; a refusal keeps the session and shows and throws the response's message or the fallback; loading ends |
| Js.ParseIntOfNat | frontend/src/components/Home/HeroSection.js:133 | `parseInt` of a number's decimal text gives the number back |
| Sorting.SortByCorrect | frontend/src/pages/Destinations.jsx:197-212 | the stable sort used for every ordering returns a permutation of its input, ordered by the key |
| Sorting.SortByStableWhenSorted | frontend/src/pages/Destinations.jsx:197-212 | sorting an already ordered list leaves it unchanged |
| Text.TrimIdempotent | travel_backend/contacts/serializers.py:25 | stripping twice is stripping once |
| Text.NatToStringInjective | frontend/src/pages/DestinationDetail.js:109 | different ids have different decimal keys, so object keys written as text name one destination each |

## Left out

- Network plumbing: `services/api.js` and `services/destinationService.js` (the Axios client, the token-refresh interceptor, URLs and HTTP verbs) are not part of this model. Every API call is an `Outcome` parameter, so the client-side cancel request (a `PATCH` of the status) is not connected to the server's `cancel_booking` view.
- JWT generation (`RefreshToken`) is left out; tokens are opaque strings.
- `authenticate` is an input flag, and `LoginOutcomes` shows that the answer does not depend on it.
- The notification mails of the contact view (`send_mail` and their HTML bodies) are left out. Only their failure is a parameter.
- `create_user`'s address normalisation and password hashing are left out: the user table stores the password as given.
- DRF field-level checks that carry no custom code are left out. These are `max_length`, the `EmailField` format, required flags, and the string-to-integer parsing of `IntegerField`. Only the custom `validate_*` methods and the views' own checks are modelled.
- The contact serializer's read-only `id`, `status` and `created_at` are not modelled as fields of the request. `NewContact` never takes them from it.
- Floating point is left out. Prices are integer cents and ratings integer hundredths, so `parseFloat`, `toFixed`, decimal strings and `Review.helpfulness_percentage` are not modelled as floats.
- Clock and timers are left out: "now" and "today" are parameters. The `setTimeout` delays are not modelled: the 2-second success callback of the booking form, the contact form's reset delay and the 1.5-second minimum loading time of the destinations page.
- Locale formatting is left out (`toLocaleDateString`, `toLocaleString`, `Intl.NumberFormat`).
- Text is a sequence of code points. JavaScript lengths count UTF-16 units, so characters outside the basic plane count once here and twice in the browser.
- Case mapping is ASCII only (`toLowerCase`, `lower()`, `icontains`).
- Percent-encoding of query strings is left out: queries are ordered key/value pairs.
- JSON is left out. The stored user is a value, and whether its text parses is a parameter of `RestoreFrom`. `JSON.stringify` of an error body is a field of the response.
- ProfileSettings.FieldText: only states the result for a missing field and a text field. For other JSON values `user.x || ''` depends on JavaScript's string conversion, which is not modelled.
- `build_absolute_uri` is modelled as the request origin followed by the upload's address.
- Sorting is a stable insertion sort by an integer key. That matches `Array.prototype.sort`. Django's `order_by` leaves the order of ties to the database, so the model fixes one stable order for them.
- The featured and quick-search endpoints use the model's default ordering (newest first), which the model applies explicitly.
- `slugify` in `Destination.save` and the `localeCompare` sort of `Tours.jsx` are left out. `Tours.jsx` computes a list it never renders.
- Randomness: the eight digits of a generated `booking_id` are an argument. Only its shape and the "keep an existing id" rule are stated.
- `FavoriteDestinationListView` (`favorites/views.py`:94-134) is left out. It only copies fields of each favourite's destination into a dictionary.
- The categories endpoint, reviews and weather are left out. The destination detail page's review load is a success flag and weather is not modelled.
- The 500 answers that only a database exception produces in the favourites and destinations views are not modelled.
- Navigation-bar keyboard shortcuts (Ctrl+K focus, Escape to clear a focused box), the click-outside handler and the scroll effect are left out: they depend on DOM focus and events.
- The share buttons (`navigator.share`, the clipboard) and the card's booking-success alert are left out.
- The detail page's selected image and tab are left out.
- BookingForm.Wizard.HandleSubmit, ContactForm.Page.HandleSubmit, RegisterForm.Page.HandleSubmit, LoginForm.Page.HandleSubmit: the browser's own constraint validation is not modelled. That covers the `required` attributes and `type="email"`, including the white-space stripping of e-mail inputs. It blocks submission before the handler runs, so each handler's "sent iff the form's own checks pass" holds only for forms the browser lets through.
- ContactSerializers.ValidateMeaning: a blank name, e-mail, subject or message is refused by the framework's `allow_blank=False` check, with "This field may not be blank.", before the custom validator runs. The model reports the validator's own message for it; whether the submission is refused is the same.
- ContactSerializers.ValidatePhone: digits are '0' to '9' only. Python's `str.isdigit` is also true for every other Unicode decimal digit and for digit characters such as superscripts, so the server accepts a phone such as "١٢" (U+0661 U+0662) that the model refuses.
- The contact `category` is a `ChoiceField`: a value outside the six choices of `contacts/models.py` is refused by the framework. The model stores the category as given.
- BookingViews.CancelBooking: follows the corrected `Cancel`, not the code as written. A booking the requester does not own gets 404 here where the view as written answers 500; `CancelAsWritten` and the Findings table keep the as-written behaviour.
- The mount-time `clearError` call of `Login.js` (lines 30-34) is not a member of `LoginForm.Page`. It is the session's `ClearError` run once when the page appears.
- BookingDetails.FormatPrice: a shown boolean, array or object is kept as the value, not as its `toLocaleString()` text.
- Pure presentation components, routing, admin configuration, URL tables, migrations and seed scripts are not part of this model.

## Findings

| source | as written | input that shows it | evidently intended | confidence | as-written member | corrected member |
|---|---|---|---|---|---|---|
| travel_backend/bookings/views.py:63-91 | `get_object_or_404` runs inside `try/except Exception`, so the 404 it raises for a missing booking, or for another user's booking, is caught and answered 500 | user 8 cancels booking 1, which belongs to user 7 | 404 for a booking the requester does not own or that does not exist | not executed | BookingViews.CancelAsWritten | BookingViews.Cancel |
| frontend/src/pages/Destinations.jsx:88-137 | the fetch effect depends on `[location.search, loadingStartTime]` and sets `loadingStartTime` itself at line 90, so each run makes it due again: it keeps refetching and re-applies `?search=` | on `/destinations?search=x`, after the first fetch the user types "y"; the next run sets the search term back to "x" | one run per `location.search`, so a typed term stays | not executed | DestinationsPage.Page.RefetchAfterTypingAsWritten | DestinationsPage.Page.TypingAfterFetch |
