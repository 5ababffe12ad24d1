# Travel planner: main screen and preferences, in Dafny

This project models the parts of the travel-planning app's main screen and user preferences that hold logic. The rest of the code is user-interface composition.

- **Top bar title** (`TopBar`, `top_bar.dfy`). `CommonTopBar` computes a character budget from the screen width. A title longer than the budget is broken into two lines. The cut is at the first space at or after the title's midpoint, or at the midpoint itself, and the second line is trimmed. The bar then picks one of two text styles, depending on whether the adjusted title still exceeds the budget. Kotlin strings count UTF-16 code units, so the title is a sequence of code units (`CodeUnit`). `trim()` drops what Kotlin's JVM `Char.isWhitespace` accepts.
- **Destination cards** (`MainScreen`, `main_screen.dfy`). The main screen shows one `DestinationCard` per trip, in list order. Each card looks its destination up in the current trips, taking the first trip whose destination is equal. It then shows *that* trip's destination, its itinerary names in order and the route `"ItineraryScreen/" + id`. When the lookup finds nothing, the card shows nothing. Because the lookup is by destination, two trips with the same destination both show the earlier trip's card (`SameDestinationSameCard`). The names that `MainScreen` passes to `DestinationCard` are never used.
- **Preferences** (`Domain`, `preferences.dfy`). This is a class with the four mutable fields of the Kotlin data class. `UpdatePreferences` overwrites theme, language and notification flag in place and leaves `userId` alone. Its effect is stated as a function on the record value (`Updated`), and the lemmas prove idempotence and last-write-wins for that function.
- `Entities` (`entities.dfy`) holds `User`, `ItineraryItem` and `Trip` as values. `Wrappers` holds `Option`, which stands in for Kotlin's nullable result of `find`.

The code does not check that theme and language are non-empty, so `UpdatePreferences` accepts any strings. A failed lookup is not an error: it is `None`, and the card then shows nothing.

## Model

| member | source | states |
|---|---|---|
| `TopBar.MaxCharacters` | app/src/main/java/com/example/goplanify/ui/screens/MainScreen.kt:124 | the budget is even, and exactly the m with 5m <= width < 5m + 10 (truncating division by ten, times two) |
| `TopBar.IndexOf` | app/src/main/java/com/example/goplanify/ui/screens/MainScreen.kt:130 | the result is the first index at or after `from` that holds the unit, or -1 exactly when no such index exists |
| `TopBar.SplitIndex` | app/src/main/java/com/example/goplanify/ui/screens/MainScreen.kt:129-130 | midpoint <= index <= length, and index < length for a non-empty title; no space between midpoint and index; either a space at a positive index, or the midpoint when no space at a positive index follows it |
| `TopBar.LeadingWhitespace` | app/src/main/java/com/example/goplanify/ui/screens/MainScreen.kt:131 | the count is the length of the longest all-whitespace prefix |
| `TopBar.TrailingWhitespace` | app/src/main/java/com/example/goplanify/ui/screens/MainScreen.kt:131 | the count is the length of the longest all-whitespace suffix |
| `TopBar.Trim` | app/src/main/java/com/example/goplanify/ui/screens/MainScreen.kt:131 | the result is the slice after the leading whitespace; everything after it is whitespace; it neither starts nor ends with whitespace; it is empty exactly when the input is all whitespace |
| `TopBar.AdjustTitle` | app/src/main/java/com/example/goplanify/ui/screens/MainScreen.kt:127-135 | a title within the budget is returned unchanged; a longer one gets a line feed |
| `TopBar.AdjustTitleSplits` | app/src/main/java/com/example/goplanify/ui/screens/MainScreen.kt:128-131 | a title over budget becomes exactly its prefix up to the split index, one line feed, then the trimmed rest; the index lies in the second half |
| `TopBar.SecondLineDropsSplitSpace` | app/src/main/java/com/example/goplanify/ui/screens/MainScreen.kt:130-131 | when the cut is at a space, the second line does not start with a space and the result is no longer than the title |
| `TopBar.AdjustTitleLength` | app/src/main/java/com/example/goplanify/ui/screens/MainScreen.kt:129-131 | the split title is at most one unit longer than the original; the second line is at most one unit longer than the first |
| `TopBar.StyleFor` | app/src/main/java/com/example/goplanify/ui/screens/MainScreen.kt:137-141 | `TitleLarge` exactly when the adjusted title exceeds the budget, `HeadlineMedium` exactly otherwise |
| `TopBar.CommonTopBarTitle` | app/src/main/java/com/example/goplanify/ui/screens/MainScreen.kt:122-148 | the shown text is the adjusted title; a title that fits is shown unchanged in `HeadlineMedium`; the style is `TitleLarge` exactly when the shown text exceeds the budget |
| `TopBar.LongTitleGetsTitleLarge` | app/src/main/java/com/example/goplanify/ui/screens/MainScreen.kt:128-141 | a title at least twice the budget plus one always ends up in `TitleLarge` |
| `MainScreen.ItineraryRoute` | app/src/main/java/com/example/goplanify/ui/screens/MainScreen.kt:84 | the route is the prefix `ItineraryScreen/` followed by exactly the trip id |
| `MainScreen.ItineraryRouteInjective` | app/src/main/java/com/example/goplanify/ui/screens/MainScreen.kt:102 | two routes are equal if and only if their trip ids are |
| `MainScreen.ActivityNames` | app/src/main/java/com/example/goplanify/ui/screens/MainScreen.kt:93-95 | one name per itinerary item, in order, each the item's `name` |
| `MainScreen.FindByDestination` | app/src/main/java/com/example/goplanify/ui/screens/MainScreen.kt:75 | a found trip is in the list and has the destination; nothing is found exactly when no trip has it |
| `MainScreen.FindByDestinationFirst` | app/src/main/java/com/example/goplanify/ui/screens/MainScreen.kt:75 | the lookup returns the first trip in list order with the destination |
| `MainScreen.CardOf` | app/src/main/java/com/example/goplanify/ui/screens/MainScreen.kt:84-102 | the card shows the trip's destination, one activity per itinerary item in order with the item's `name`, and the route `ItineraryScreen/` followed by exactly the trip id |
| `MainScreen.DestinationCard` | app/src/main/java/com/example/goplanify/ui/screens/MainScreen.kt:66-113 | no card exactly when no trip has the destination; a card shows the requested destination |
| `MainScreen.DestinationCardOfFirst` | app/src/main/java/com/example/goplanify/ui/screens/MainScreen.kt:75-102 | the first trip with a destination gets its own card: route `ItineraryScreen/` + its id, its itinerary names in order |
| `MainScreen.CardsFor` | app/src/main/java/com/example/goplanify/ui/screens/MainScreen.kt:49-60 | never more cards than trips shown; every card is the card some shown trip's lookup yields; when every lookup misses there are no cards |
| `MainScreen.CardsForSingle` | app/src/main/java/com/example/goplanify/ui/screens/MainScreen.kt:75-77 | one shown trip gives exactly its lookup's card on a hit and no card on a miss (the empty else-branch at lines 110-112) |
| `MainScreen.CardsForAppend` | app/src/main/java/com/example/goplanify/ui/screens/MainScreen.kt:50-58 | the cards for `a + b` are the cards for `a` followed by the cards for `b`, so cards keep the shown trips' order |
| `MainScreen.CardsForAt` | app/src/main/java/com/example/goplanify/ui/screens/MainScreen.kt:50-58 | when every shown trip is in the store, there is one card per trip, in order, each the card its lookup yields |
| `MainScreen.MainScreenCards` | app/src/main/java/com/example/goplanify/ui/screens/MainScreen.kt:49-60 | one card per trip, in order, card k showing trip k's destination |
| `MainScreen.MainScreenCardAt` | app/src/main/java/com/example/goplanify/ui/screens/MainScreen.kt:50-94 | card k shows the first trip whose destination equals trip k's |
| `MainScreen.MainScreenCardsDistinct` | app/src/main/java/com/example/goplanify/ui/screens/MainScreen.kt:50-53 | with distinct destinations, the cards are exactly the trips' own cards in list order |
| `MainScreen.SameDestinationSameCard` | app/src/main/java/com/example/goplanify/ui/screens/MainScreen.kt:51-52 | two trips with the same destination get identical cards |
| `Domain.Updated` | app/src/main/java/com/example/travelplanner/domain/Preferences.kt:10-14 | theme, language and flag become the arguments, empty strings included; the user is kept |
| `Domain.UpdatedIdempotent` | app/src/main/java/com/example/travelplanner/domain/Preferences.kt:10-14 | updating twice with the same arguments equals updating once |
| `Domain.UpdatedLastWriteWins` | app/src/main/java/com/example/travelplanner/domain/Preferences.kt:11-13 | two successive updates equal the second alone |
| `Domain.UpdatedForgetsOldValues` | app/src/main/java/com/example/travelplanner/domain/Preferences.kt:11-13 | the result depends only on the user and the arguments |
| `Domain.Preferences.constructor` | app/src/main/java/com/example/travelplanner/domain/Preferences.kt:3-8 | the new object holds the four given values |
| `Domain.Preferences.UpdatePreferences` | app/src/main/java/com/example/travelplanner/domain/Preferences.kt:4-14 | only theme, language and flag may change; they become the arguments; `userId` is unchanged; the new value is `Updated` of the old one |

## Left out

- Compose rendering is not modelled: `Scaffold`, `LazyColumn`, `Card`, `Text`, `TopAppBar`, `Button` and the static texts ("Choose Your Travel Package", "Things to do:"). Only the derived values are kept: the title text, the style, the cards and the routes.
- A card holds the values it shows, not the texts around them: the "Trip to " before the destination (MainScreen.kt:89) and the "- " before each activity name (MainScreen.kt:94) are left out.
- The settings menu toggle `showSettingsMenu` and the `navController.navigate` calls (MainScreen.kt:152-201) are UI state and side effects. Only the itinerary route string is modelled, as a value.
- `tripViewModel.fetchTrips()`, `LaunchedEffect` and `collectAsState` are asynchronous stream plumbing over a view model that is not part of this model. The trip list is an input sequence.
- `hiltViewModel`, `stringResource`, `LocalConfiguration` and `LocalContext` are dependency injection and platform resources. The title and the screen width (`screenWidthDp`, a `nat`) are parameters.
- `TopBar.AdjustTitle`: `remember(title)` caches the adjusted title by title only. The model recomputes it from the current width; a stale cache after a width change is not modelled.
- `TopBar.MaxCharacters`: the width is an unbounded `nat`. 32-bit `Int` overflow cannot occur for real screen widths.
- `TopBar.IsWhitespace` is fixed to one Unicode version's separators. Characters whose category changed between versions (U+180E) are not whitespace here.
- `Map.kt` is not part of this model. `showLocation` only formats two `Double`s into text, and `getNearbyPlaces` returns a constant placeholder.
- Trip ids, destinations and item names are Dafny `string`s, which hold Unicode scalar values, not UTF-16 code units. A lone surrogate cannot be written, and `MainScreen.CardOf`'s route length counts code points, not Kotlin's `length`. The cards only compare and concatenate these strings, and both operations agree on well-formed text.
- `User` is not part of this model. An identifier stands for it. The back-reference from `ItineraryItem` to its trip is that trip's id.
- Sharing a `Preferences` object between holders is covered only by Dafny's reference semantics. Concurrent writers are not modelled.
