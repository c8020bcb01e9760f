# Kids English Learning — a verified model of the client-side state logic

The application is a browser-only English course for children. It shows
alphabet and vocabulary cards, keeps a favorites list, tracks learning
progress with achievements, and counts visits per day. This project models
the state logic behind those screens in Dafny and proves properties of it.
Rendering, animation and speech are not modelled. The model has five parts,
one module each:

- `LearningProgress` (`learning_progress.dfy`) is the learning-progress hook.
  Three counters (letters, words, minutes) are raised by the record
  operations. A shared commit step then updates the day streak
  (`consecutiveDays`), the last learning day and the number of days learned.
  Then the fixed catalogue of eleven achievements is checked, and the
  identifiers of newly met ones are appended to the unlocked list. A reset
  returns everything to zero.
- `Favorites` (`favorites.dfy`) is the favorites hook. It holds a list of
  favorited words with unique identifiers. Add does nothing for an
  identifier already present. Remove filters. Toggle does whichever of the
  two applies. Clear empties the list. There are membership and category
  queries.
- `FavoritesView` (`favorites_view.dfy`) is the favorites screen. It derives
  the category buttons ("All" first), the cards shown for the selected
  button, and the count badge on each button.
- `Analytics` (`analytics.dfy`) is the visit panel. A visit creates today's
  entry or adds one view to it. The panel reads the record back as chart
  rows sorted by date, plus three summary totals.
- `WordsLearning` (`words_learning.dfy`) is the vocabulary screen. It holds
  the table of one hundred words, the category filter, previous/next
  navigation over the filtered list, and a flip state per card.
- `Sequences` (`sequences.dfy`) holds shared facts about order-preserving
  subsequences and distinct elements.

Each hook or component whose state the source updates in place is a class.
These are `ProgressTracker`, `FavoritesStore`, `Storage` with `Panel`, and
`WordCards`. Each of their methods is specified by a pure step function of
the old state. The lemmas that state what the source promises are proved
about those step functions.

The achievement catalogue and the word table are module-level constants in
the source. Here `ProgressTracker.catalogue` and `WordCards.table` are
constant fields, and each constructor sets its field to that constant. The
step functions take the catalogue or table as a parameter. The lemmas hold
for any catalogue (some need distinct identifiers) and any table. The
scenario and table lemmas apply them to the fixed catalogue and table.

Modelling conventions:

- Calendar dates are integer day numbers supplied by the caller. The source
  takes the UTC date of the current time, and the difference of two such
  dates, in days, is an exact integer.
- An empty `lastLearningDate` is `Never`.
- The insertion time of a favorite (`Date.now()`) and the freshly generated
  client id are parameters.
- The stored visit record is a sequence of (day, stats) entries in key
  order. For date keys that is insertion order, the order in which
  `Object.keys` and `Object.values` list them.

## Model

| member | source | states |
|---|---|---|
| LearningProgress.Bump | client/src/hooks/useLearningProgress.ts:166-181 | A record operation raises its own counter by exactly the amount given. The other two counters, the streak, the last date and the day count are unchanged. |
| LearningProgress.Committed | client/src/hooks/useLearningProgress.ts:184-205 | The streak law. With no previous date the streak is 1. The day after the last date gives the previous streak + 1. A gap of more than one day gives 1. The same day (or an earlier one) keeps the streak carried by the spread. The last date becomes today. The day count grows by 1 exactly when the previous last date is not today. The counters are kept. |
| LearningProgress.NewlyUnlocked | client/src/hooks/useLearningProgress.ts:212-219 | Every identifier pushed is not yet unlocked and belongs to a catalogue entry whose condition holds. Every such catalogue entry's identifier is pushed. |
| LearningProgress.UnlockedObjects | client/src/hooks/useLearningProgress.ts:233-235 | An entry is returned exactly when it is in the catalogue and its identifier is unlocked. The result keeps catalogue order. |
| LearningProgress.CatalogueIdsDistinct | client/src/hooks/useLearningProgress.ts:32-110 | The eleven catalogue identifiers are distinct. |
| LearningProgress.EntryById | client/src/hooks/useLearningProgress.ts:32-110 | A catalogue identifier names exactly one catalogue entry. |
| LearningProgress.NewlyUnlockedInCatalogueOrder | client/src/hooks/useLearningProgress.ts:215-219 | The identifiers appended by one check come in catalogue order. |
| LearningProgress.NewlyUnlockedDistinct | client/src/hooks/useLearningProgress.ts:221-223 | Appending the new identifiers to a duplicate-free unlocked list leaves it duplicate-free. |
| LearningProgress.NewlyUnlockedAreCatalogueIds | client/src/hooks/useLearningProgress.ts:215-219 | Only catalogue identifiers are appended. |
| LearningProgress.CheckIsIdempotent | client/src/hooks/useLearningProgress.ts:212-230 | A second check with the same statistics appends nothing. |
| LearningProgress.ConditionMonotone | client/src/hooks/useLearningProgress.ts:32-110 | A `>=` threshold condition that holds keeps holding when its measure grows. |
| LearningProgress.SameIdSameEntry | client/src/hooks/useLearningProgress.ts:32-110 | In a catalogue whose identifiers are distinct, two entries with the same identifier are the same entry. |
| LearningProgress.MetConditionsAreUnlocked | client/src/hooks/useLearningProgress.ts:207-208 | For any catalogue, after a learning event every catalogue entry whose condition holds for the committed record is unlocked. |
| LearningProgress.UnlockedOnlyGrows | client/src/hooks/useLearningProgress.ts:221-223 | For any catalogue and any run of events, the earlier unlocked list is a prefix of the later one. |
| LearningProgress.CountersAreTotals | client/src/hooks/useLearningProgress.ts:166-181 | From a fresh store, each counter is the sum of the amounts recorded for its activity. |
| LearningProgress.CounterAchievementsStayMet | client/src/hooks/useLearningProgress.ts:32-110 | For a catalogue with distinct identifiers and non-negative amounts, every unlocked letter, word or time achievement still holds for the current record. |
| LearningProgress.StreakIsLongestRun | client/src/hooks/useLearningProgress.ts:187-205 | For events on days that never go back, the last learning date is the last event day. The streak is the length of the longest unbroken run of days that ends there. The day count is the number of distinct event days. |
| LearningProgress.Record | client/src/hooks/useLearningProgress.ts:166-230 | One record call raises its own counter by exactly its amount and leaves the other two alone. The last learning date becomes the event day. The old unlocked list is a prefix of the new one. |
| LearningProgress.FirstEventStreak | client/src/hooks/useLearningProgress.ts:200-205 | The first event gives a one-day streak, the event day as the last date, and a day count of 1. |
| LearningProgress.LaterEventStreak | client/src/hooks/useLearningProgress.ts:188-205 | A later event on the same or a later day keeps the streak and the day count matched to the history. |
| LearningProgress.FirstLetterScenario | client/src/hooks/useLearningProgress.ts:33-46 | One letter on a fresh store gives one letter, a one-day streak, `first_letter` unlocked and `alphabet_master` not. |
| LearningProgress.WordMilestonesReached | client/src/hooks/useLearningProgress.ts:172-175 | After `n` single words, on any days, the word counter is `n`, and every word achievement with threshold at most `n` is unlocked. |
| LearningProgress.TwoHundredWordsScenario | client/src/hooks/useLearningProgress.ts:47-81 | Two hundred single words unlock all five word milestones (1, 10, 50, 100, 200). |
| LearningProgress.ProgressTracker.constructor | client/src/hooks/useLearningProgress.ts:113-122 | The store checks the fixed catalogue. It starts from zero counters, no date and no unlocked achievements. |
| LearningProgress.ProgressTracker.RecordAlphabetLearning | client/src/hooks/useLearningProgress.ts:166-169 | The new state is one letter event applied to the old one. The unlocked list stays duplicate-free and within the catalogue. |
| LearningProgress.ProgressTracker.RecordWordLearning | client/src/hooks/useLearningProgress.ts:172-175 | The same for a word event. |
| LearningProgress.ProgressTracker.RecordLearningTime | client/src/hooks/useLearningProgress.ts:178-181 | The same for a minutes event. |
| LearningProgress.ProgressTracker.UpdateLearningStats | client/src/hooks/useLearningProgress.ts:184-209 | The statistics become the commit of the raised record. The unlocked list gains the newly met identifiers. |
| LearningProgress.ProgressTracker.CheckAchievements | client/src/hooks/useLearningProgress.ts:212-230 | The loop appends exactly the newly met identifiers, in catalogue order, and keeps the list valid. |
| LearningProgress.ProgressTracker.GetUnlockedAchievementObjects | client/src/hooks/useLearningProgress.ts:233-235 | Returns the catalogue entries whose identifiers are unlocked, in catalogue order. |
| LearningProgress.ProgressTracker.ResetAllData | client/src/hooks/useLearningProgress.ts:238-250 | Zero counters, no date, no unlocked achievements. |
| Favorites.Stamped | client/src/hooks/useFavorites.ts:45 | The favorite keeps every field of the word it was made from, and its `addedAt` is the insertion time. |
| Favorites.HasId | client/src/hooks/useFavorites.ts:55-57 | True exactly when some entry has the identifier. |
| Favorites.WithoutId | client/src/hooks/useFavorites.ts:50-52 | Keeps exactly the entries with another identifier, in their order. |
| Favorites.ByCategory | client/src/hooks/useFavorites.ts:60-62 | Keeps exactly the entries of the category, in their order. |
| Favorites.WithAdded | client/src/hooks/useFavorites.ts:39-47 | The identifiers afterwards are the old ones plus the new one. A present identifier leaves the list unchanged. An absent one appends exactly one stamped entry and keeps the earlier entries. |
| Favorites.Toggled | client/src/hooks/useFavorites.ts:70-76 | The toggled identifier changes membership. Every other identifier keeps its membership. |
| Favorites.AddIsIdempotent | client/src/hooks/useFavorites.test.ts:163-183 | Adding the same word twice equals adding it once, keeping the first `addedAt`. |
| Favorites.AddKeepsUnique | client/src/hooks/useFavorites.ts:39-47 | Adding keeps identifiers unique. |
| Favorites.RemoveAbsentIsNoop | client/src/hooks/useFavorites.ts:50-52 | Removing an absent identifier leaves the list unchanged. |
| Favorites.RemovePresent | client/src/hooks/useFavorites.ts:50-52 | With unique identifiers, removing entry k's identifier removes exactly entry k. |
| Favorites.RemoveKeepsUnique | client/src/hooks/useFavorites.ts:50-52 | Removing keeps identifiers unique. |
| Favorites.AddThenRemove | client/src/hooks/useFavorites.test.ts:63-85 | Adding a new word and removing it gives back the list, without that identifier. |
| Favorites.ToggleTwiceAbsent | client/src/hooks/useFavorites.test.ts:185-211 | Two toggles of an absent word give back exactly the list. |
| Favorites.ToggleTwicePresent | client/src/hooks/useFavorites.ts:70-76 | Two toggles of a present word restore length and membership. The word comes back at the end with the second timestamp. |
| Favorites.FavoritesStore.constructor | client/src/hooks/useFavorites.ts:15 | The list starts empty. |
| Favorites.FavoritesStore.AddFavorite | client/src/hooks/useFavorites.ts:39-47 | The list becomes the added list, and identifiers stay unique. |
| Favorites.FavoritesStore.RemoveFavorite | client/src/hooks/useFavorites.ts:50-52 | The list becomes the filtered list, and identifiers stay unique. |
| Favorites.FavoritesStore.IsFavorite | client/src/hooks/useFavorites.ts:55-57 | True exactly when some favorite has the identifier. |
| Favorites.FavoritesStore.GetFavoritesByCategory | client/src/hooks/useFavorites.ts:60-62 | Exactly the favorites of the category, in list order. |
| Favorites.FavoritesStore.ClearAllFavorites | client/src/hooks/useFavorites.ts:65-67 | The list becomes empty. |
| Favorites.FavoritesStore.ToggleFavorite | client/src/hooks/useFavorites.ts:70-76 | The list becomes the toggled list, and identifiers stay unique. |
| FavoritesView.DistinctCategories | client/src/components/FavoritesManager.tsx:12 | No category twice, and a category is listed exactly when some favorite has it. |
| FavoritesView.Categories | client/src/components/FavoritesManager.tsx:12 | "All" comes first. It is followed by distinct categories, each the category of some favorite, and every favorite's category is among them. |
| FavoritesView.CategoriesInFirstAppearanceOrder | client/src/components/FavoritesManager.tsx:12 | The categories after "All" are in the order of their first favorite. |
| FavoritesView.Filtered | client/src/components/FavoritesManager.tsx:15-17 | "All" shows every favorite. Any other label shows exactly that category's favorites. Both keep list order. |
| FavoritesView.CountShown | client/src/components/FavoritesManager.tsx:66 | The badge is the number of cards the button shows. |
| FavoritesView.DistinctCategoryCounts | client/src/components/FavoritesManager.tsx:66 | The counts of the distinct categories add up to the number of favorites. |
| FavoritesView.BadgesAreFilterCounts | client/src/components/FavoritesManager.tsx:66 | On buttons not labelled "All", the badges add up to the sum of the category filter counts. |
| FavoritesView.CountsSumToTotal | client/src/components/FavoritesManager.tsx:66 | When no favorite is filed under the category "All", the badges shown on the category buttons after "All" add up to the badge on "All". |
| FavoritesView.AllCategoryBadgesOvercount | client/src/components/FavoritesManager.tsx:66 | A favorite filed under "All" plus one other favorite give the buttons "All", "All", and the other category. The badges after the first button add up to 3, but the "All" badge is 2. |
| Analytics.Lookup | client/src/components/AnalyticsPanel.tsx:81 | Nothing is found exactly when the day is not a key. Otherwise the entry under that key is returned. |
| Analytics.Visited | client/src/components/AnalyticsPanel.tsx:81-90 | Today's entry becomes the first-visit stats when missing, or the old stats with one more view. Every other day is unchanged. A new key is appended only for a new day. |
| Analytics.AfterVisit | client/src/components/AnalyticsPanel.tsx:78-92 | A missing record counts as empty, giving exactly today's first-visit entry. Unparsable text is left as it is. A record becomes the record after the visit, with an entry for today. |
| Analytics.VisitKeepsValid | client/src/components/AnalyticsPanel.tsx:81-90 | A visit keeps every day a single key. |
| Analytics.VisitKeepsWellKeyed | client/src/components/AnalyticsPanel.tsx:81-87 | A visit keeps each entry's date equal to its key. |
| Analytics.VisitKeepsCounters | client/src/components/AnalyticsPanel.tsx:84-89 | Entries written by visits keep one "unique IP", no clicks and at least one view. |
| Analytics.VisitTotals | client/src/components/AnalyticsPanel.tsx:81-90 | One visit adds exactly one view to the total and leaves the click total alone. The day count grows by one exactly when today had no entry. |
| Analytics.SumBounds | client/src/components/AnalyticsPanel.tsx:48-49 | With non-negative counters, a total is non-negative and at least each day's counter. |
| Analytics.Totals | client/src/components/AnalyticsPanel.tsx:48-55 | The card labelled with unique IPs shows the number of keys, that is of days with a visit. The click and view totals are non-negative when every day's counters are. |
| Analytics.TotalsCountVisits | client/src/components/AnalyticsPanel.tsx:48-53 | From an empty record, after a run of visits, the day count is the number of distinct days, clicks are 0 and views are the number of visits. Each day is listed once. |
| Analytics.InsertKeepsSorted | client/src/components/AnalyticsPanel.tsx:39-41 | Inserting an entry into a date-sorted list keeps it sorted. |
| Analytics.SortByDate | client/src/components/AnalyticsPanel.tsx:39-41 | A permutation of its input, sorted by date. |
| Analytics.ChartData | client/src/components/AnalyticsPanel.tsx:39-41 | The chart rows are a permutation of the record's values, one per key, earliest date first. |
| Analytics.Storage.RecordVisit | client/src/components/AnalyticsPanel.tsx:71-96 | A stored client id is kept; a missing or empty one is replaced by the fresh id. The stored record becomes the record after the visit. |
| Analytics.Panel.constructor | client/src/components/AnalyticsPanel.tsx:21-27 | The panel starts empty, with zero totals. |
| Analytics.Panel.LoadAnalytics | client/src/components/AnalyticsPanel.tsx:31-60 | A readable record replaces the state, with the chart and the totals derived from it. A missing or unparsable record leaves the state alone. |
| WordsLearning.WordsTable | client/src/components/WordsLearning.tsx:22-123 | The table holds 100 words. Word `i + 1` is at position `i`, and the category of position `i` is category `i / 10` in key order. |
| WordsLearning.WordIdsDistinct | client/src/components/WordsLearning.tsx:22-123 | No two words share an id. |
| WordsLearning.Filter | client/src/components/WordsLearning.tsx:148 | Keeps exactly the words of the category, in table order. |
| WordsLearning.FilteredWords | client/src/components/WordsLearning.tsx:146-149 | "All" gives the whole table. Any other label gives exactly that category's words. Both keep table order. |
| WordsLearning.CategoryFilterIsBlock | client/src/components/WordsLearning.tsx:146-149 | Each of the ten categories shows exactly its own ten words. |
| WordsLearning.UnknownCategoryIsEmpty | client/src/components/WordsLearning.tsx:146-149 | A label that is neither "All" nor a category shows no word. |
| WordsLearning.Categories | client/src/components/WordsLearning.tsx:144 | Eleven distinct labels: "All", then the category keys in declaration order. |
| WordsLearning.EmojiFor | client/src/components/WordsLearning.tsx:209 | A category gets its own emoji. Any other label gets the pin. |
| WordsLearning.EmojiIn | client/src/components/WordsLearning.tsx:209 | Looking a label up among an object's distinct keys gives the value of the matching key, or the pin when no key matches. |
| WordsLearning.Next | client/src/components/WordsLearning.tsx:163-168 | Stays in range. Moves exactly one step forward when the index is before the last word, and stays put otherwise. |
| WordsLearning.Prev | client/src/components/WordsLearning.tsx:170-175 | Stays in range. Moves exactly one step back when the index is above 0, and stays put otherwise. |
| WordsLearning.NextPrevInverse | client/src/components/WordsLearning.tsx:163-175 | Back undoes a forward step that moved, and forward undoes a back step that moved. |
| WordsLearning.ForwardFromStart | client/src/components/WordsLearning.tsx:163-168 | `n` presses of next from card `i` reach card `i + n`, stopping at the last card. |
| WordsLearning.Toggle | client/src/components/WordsLearning.tsx:223 | Negates the flip state of that id only. |
| WordsLearning.ToggleTwice | client/src/components/WordsLearning.tsx:223 | Two flips of a card show every card as before. |
| WordsLearning.WordCards.constructor | client/src/components/WordsLearning.tsx:139-141 | Shows the word table. Starts on "All", at the first card, with no card flipped. |
| WordsLearning.WordCards.CurrentWord | client/src/components/WordsLearning.tsx:151 | Absent exactly when the filtered list is empty. Otherwise it is the word of the filtered list at the current index. |
| WordsLearning.WordCards.GoNext | client/src/components/WordsLearning.tsx:163-168 | The index advances by the `Next` rule, and stays in range. Flips are cleared exactly when it moved. |
| WordsLearning.WordCards.GoPrev | client/src/components/WordsLearning.tsx:170-175 | The index goes back by the `Prev` rule, and stays in range. Flips are cleared exactly when it moved. |
| WordsLearning.WordCards.SelectCategory | client/src/components/WordsLearning.tsx:195-199 | Sets the category, goes to the first card and clears the flips. The index is then in range. |
| WordsLearning.WordCards.FlipCard | client/src/components/WordsLearning.tsx:223 | Toggles the current word's flip state and changes nothing else. |

## Left out

- LearningProgress.StreakIsLongestRun: proved only for event days that never go back. When the clock goes back, the code keeps the carried streak, and the "longest run" reading no longer applies. `Committed` still states what the code does in that case.
- Favorites.ToggleTwicePresent: states restored length and membership, not the restored list. The code re-appends the word at the end with a new `addedAt`, so the list itself is not restored.
- Analytics.ChartData: states a date-sorted permutation. It does not state the order of two entries with the same date, which `SortByDate` keeps as in the record (a stable sort). Dates that do not parse are not modelled; every stored date is a day number.
- Persistence: `localStorage` and JSON are left out. This covers the loads of the progress record, the achievements and the favorites, and their writes and the exceptions those writes can raise. The stored visit record is modelled only as absent, unparsable or a record. Stored JSON that parses to something other than an object of daily stats is not modelled.
- In the code, a failed write of the progress record also skips the in-memory update, because the write comes first inside the same `try`. Write failures are not modelled, so the model always updates.
- Clock: `new Date()` and the date arithmetic are replaced by integer day numbers passed in.
- Randomness: `Date.now()` and `Math.random()` are replaced by the `now` and `freshClientId` parameters.
- React: effects, callbacks, batching, stale closures and the ten-second polling of the visit panel are not modelled. Operations run one after another, and each sees the previous result.
- Speech synthesis and everything presentational (JSX, animation, progress bars, the disabled state of the navigation buttons) are not part of this model.
- The unused distinct-IP computation of the visit panel (AnalyticsPanel.tsx:44-46) is not modelled.
- No operation of the visit panel changes `uniqueIPs` or `totalClicks` after creating an entry (AnalyticsPanel.tsx:81-90), so no click-recording operation is modelled.
- FavoritesView.CountsSumToTotal: requires that no favorite is filed under the category "All". Such a favorite makes "All" appear twice among the buttons, and both "All" buttons show the number of all favorites (FavoritesManager.tsx:66). The badges then overcount, as `FavoritesView.AllCategoryBadgesOvercount` shows. `FavoritesView.Categories` and `FavoritesView.DistinctCategoryCounts` hold without this requirement.
- The default `count = 1` of `recordAlphabetLearning` and `recordWordLearning` (useLearningProgress.ts:166, 172) is not modelled as a default. Every event carries its amount, and a call without an argument is the event with amount 1.
