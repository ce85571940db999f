# KBS-CORE client rules in Dafny

This project models the client side of the KBS-CORE neighbourhood marketplace and proves properties of that model. It covers:

- the home feed: circle, chip, search, distance, price and condition stages, plus the sort step;
- the filter sheet's draft, which the sheet reads from the feed's filters once, when the feed first renders;
- the stories tray and the full-screen story viewer with its timer and its hold-to-pause;
- the notification bell;
- the layout's bottom-navigation rule and the route table;
- the sell form: tabs, AI fill-in, and the listing and media records it submits;
- the photo grid upload;
- the conversation list and its relative times;
- a chat thread with optimistic sends;
- the support page's FAQ accordion;
- the helpers of `lib/utils.ts`: mock data, price labels and placeholder images.

Each screen is one module. A component whose hooks update state is a `class`. The class fields are the component's state and refs, plus logs of what it sends out: inserted rows, navigations, alerts, calls to its parent. Its handlers are methods whose `ensures` state the whole new state. Pure rules are functions with lemmas about them.

Supporting modules:

- `Text`: JavaScript `trim`, `toLowerCase`, `includes`, `startsWith` and `split(...).pop()` on strings.
- `Seqs`: `Array.prototype.filter` and its laws.
- `Sorting`: `Array.prototype.sort` with a key-difference comparator, modelled as a stable insertion sort.
- `Decimal`: digit strings.
- `Database`: the row types of `src/types/database.ts`.

`App.tsx` and `src/App.tsx` contain the same layout and route table. The module `AppLayout` models both; the rows below cite one of them.

The backend is not modelled, and neither are the browser's clock and randomness. They appear as parameters:

- Supabase queries, inserts, storage, auth and realtime channels;
- `Date.now`, `new Date().toISOString()`, `Math.random`, `parseFloat`, `toLocaleDateString`.

Examples of the corresponding inputs: the rows a query returned (`None` for an error), the id an insert returned, the signed-in user, the age of a message in milliseconds, a `NumberParser` for `parseFloat` (`None` meaning NaN).

A price bound that is not blank but does not parse is NaN. Every comparison with NaN is false, so the feed is empty (`HomeFeed.UnparsableBoundEmptiesFeed`).

## Model

| member | source | states |
|---|---|---|
| HomeFeed.ChipKind | src/pages/HomeFeed.tsx:130-134 | each of "Donation", "Trade" and "For Sale" selects its listing type, in both directions; every other chip selects no type |
| HomeFeed.SortListings | src/pages/HomeFeed.tsx:161-167 | the sort step only reorders: the result is a permutation of its input |
| HomeFeed.Preselect | src/pages/HomeFeed.tsx:126-138 | the stage-by-stage circle, chip and search filtering keeps exactly the listings in the circle whose type fits the chip and whose lowercased title or description contains the lowercased query (the search stage is skipped for a blank query) |
| HomeFeed.ApplyModalFilters | src/pages/HomeFeed.tsx:141-158 | the distance, minimum price, maximum price and condition stages, each skipped when its filter is falsy, keep exactly the listings that meet every active modal filter |
| HomeFeed.ApplyPriceBounds | src/pages/HomeFeed.tsx:146-153 | applying the optional minimum and maximum bound stages after the distance stage is the same as filtering once by all three conditions |
| HomeFeed.FeedMembership | src/pages/HomeFeed.tsx:126-168 | a listing is in the feed if and only if it is in the loaded listings and passes every stage |
| HomeFeed.FeedRespectsStages | src/pages/HomeFeed.tsx:126-158 | every listing in the feed belongs to the selected circle, fits the chip, matches a non-blank search, lies within a non-zero distance, respects each non-empty price bound in cents, and has a selected condition when conditions are selected |
| HomeFeed.UntypedChipFiltersNothing | src/pages/HomeFeed.tsx:130-134 | a chip other than the three typed ones gives the same feed as "All" |
| HomeFeed.BlankSearchFiltersNothing | src/pages/HomeFeed.tsx:135 | a whitespace-only query gives the same feed as the empty query |
| HomeFeed.ZeroDistanceFiltersNothing | src/pages/HomeFeed.tsx:141 | with distance 0 (falsy) a listing's distance does not affect whether it passes |
| HomeFeed.UnparsableBoundEmptiesFeed | src/pages/HomeFeed.tsx:146-153 | a non-empty price bound that does not parse (NaN) leaves the feed empty |
| HomeFeed.FeedShape | src/pages/HomeFeed.tsx:126-168 | the filtered list keeps the loaded order; the feed is a permutation of it, and equal to it for "newest" and unknown sort options |
| HomeFeed.FeedOrder | src/pages/HomeFeed.tsx:161-167 | "price_asc" yields non-decreasing prices, "price_desc" non-increasing prices, "closest" non-decreasing distances (a missing distance counts as 0) |
| HomeFeed.FeedStable | src/pages/HomeFeed.tsx:161-167 | listings with equal sort keys keep their relative order |
| HomeFeed.FeedIdempotent | src/pages/HomeFeed.tsx:126-168 | running the pipeline on its own output changes nothing |
| HomeFeed.FeedIsRefinedQuery | src/pages/HomeFeed.tsx:201-218 | the client pipeline equals the server path's refinement (distance, price, condition, sort) applied to the rows meeting circle, chip and search |
| HomeFeed.FindCircle | src/pages/HomeFeed.tsx:51 | the found index is the first circle with the id; None means no circle has it |
| HomeFeed.ChooseCircle | src/pages/HomeFeed.tsx:50-53 | the saved circle when it is non-empty and among the circles, otherwise the first circle; no circle exactly when the list is empty |
| HomeFeed.FeedPage.constructor | src/pages/HomeFeed.tsx:14-33 | the initial state: chip "All", empty search, modal closed, distance 25, no price bounds or conditions, sort "newest"; the mounted sheet's draft starts as those filters |
| HomeFeed.FeedPage.LoadCircles | src/pages/HomeFeed.tsx:47-53 | stores the circles and selects the circle chosen from the id saved under "kbs_preferred_circle" |
| HomeFeed.FeedPage.FetchListings | src/pages/HomeFeed.tsx:65-110 | live rows are kept only when the backend is configured and returned a non-empty list; otherwise (not configured, error, empty) the mock listings are shown |
| HomeFeed.FeedPage.SelectChip | src/pages/HomeFeed.tsx:267-270 | the clicked chip becomes active |
| HomeFeed.FeedPage.TypeSearch | src/pages/HomeFeed.tsx:249 | the search box text becomes the query, untrimmed |
| HomeFeed.FeedPage.OpenFilters | src/pages/HomeFeed.tsx:255 | the filter button opens the sheet, whose draft stays what it was |
| HomeFeed.FeedPage.SelectLocation | src/pages/HomeFeed.tsx:114-118 | the picked circle is selected, its id is saved under "kbs_preferred_circle" (which then reads back as that id), and the listings are fetched again as FetchListings does: the rows the query returned when configured and non-empty, the demo listings otherwise |
| HomeFeed.FeedPage.RunClientFilter | src/pages/HomeFeed.tsx:121-170 | without a selected circle nothing changes; otherwise the shown list becomes the feed of the loaded listings |
| HomeFeed.FeedPage.ApplyServerRows | src/pages/HomeFeed.tsx:194-219 | a failed query keeps the shown list; otherwise the shown list becomes the refined server rows |
| HomeFeed.FeedPage.ApplyFilters | src/pages/HomeFeed.tsx:226-229 | the sheet's own draft, handed over by its Apply button, becomes the active filters and the sheet closes |
| HomeFeed.FeedPage.CloseFilters | src/pages/HomeFeed.tsx:316 | the sheet's X button and backdrop close it without applying, keeping its draft |
| HomeFeed.FeedPage.ClearFilters | src/pages/HomeFeed.tsx:299-303 | chip, search and filters return to their initial values, and the sheet's draft is left as it was; the distance (25) differs from the sheet's own reset (10) |
| HomeFeed.ClearedDistanceComesBack | src/pages/HomeFeed.tsx:299-319 | a distance of 5 applied, then cleared to 25, comes back as 5 when the sheet is reopened and applied unedited, because the mounted sheet keeps its draft |
| HomeFeed.Distance | src/pages/HomeFeed.tsx:142 | a missing (falsy) distance counts as 0, for the distance stage and the "closest" key (carried by `FeedRespectsStages` and `FeedOrder`) |
| HomeFeed.InCircle | src/pages/HomeFeed.tsx:128 | a listing is in the selected circle when its circle id is that circle's id (carried by `FeedMembership` and `FeedRespectsStages`) |
| HomeFeed.KindOk | src/pages/HomeFeed.tsx:130-134 | a typed chip accepts exactly the listings of its type; "All" and every other chip accept all (`ChipKind`, `UntypedChipFiltersNothing`) |
| HomeFeed.MatchesSearch | src/pages/HomeFeed.tsx:136-137 | the lowercased title or the lowercased description contains the lowercased, untrimmed query |
| HomeFeed.SearchOk | src/pages/HomeFeed.tsx:135-137 | a blank query skips the search stage (`BlankSearchFiltersNothing`); otherwise the listing must match it |
| HomeFeed.DistanceOk | src/pages/HomeFeed.tsx:141-143 | distance 0 skips the stage (`ZeroDistanceFiltersNothing`); otherwise the listing's distance is at most the filter's miles |
| HomeFeed.MinOk | src/pages/HomeFeed.tsx:146-149 | an empty minimum skips the stage; otherwise the bound parses and the price in cents is at least 100 times it, so an unparsable bound rejects every listing (`UnparsableBoundEmptiesFeed`) |
| HomeFeed.MaxOk | src/pages/HomeFeed.tsx:150-153 | an empty maximum skips the stage; otherwise the bound parses and the price in cents is at most 100 times it |
| HomeFeed.ConditionOk | src/pages/HomeFeed.tsx:156-158 | no selected condition skips the stage; otherwise the listing's condition is one of them |
| HomeFeed.RefineOk | src/pages/HomeFeed.tsx:141-158 | the distance, price and condition stages together, the ones the server path re-applies (`FeedIsRefinedQuery`) |
| HomeFeed.QueryOk | src/pages/HomeFeed.tsx:126-138 | the circle, chip and search stages together (`Preselect`, `FeedIsRefinedQuery`) |
| HomeFeed.Keeps | src/pages/HomeFeed.tsx:126-158 | a listing passes every stage of the client pipeline (`FeedMembership`) |
| HomeFeed.PriceKey | src/pages/HomeFeed.tsx:162 | the key `price_asc` subtracts: the price in cents |
| HomeFeed.NegPriceKey | src/pages/HomeFeed.tsx:164 | `b - a` on prices is ascending order on the negated price (`FeedOrder` turns it into non-increasing prices) |
| HomeFeed.DistanceKey | src/pages/HomeFeed.tsx:166 | the key `closest` subtracts: the distance, 0 when missing |
| HomeFeed.SortKeyOf | src/pages/HomeFeed.tsx:161-167 | the key each sort option's comparator subtracts; "newest" and unknown options do not sort (`FeedShape`, `FeedOrder`) |
| HomeFeed.Narrow | src/pages/HomeFeed.tsx:126-158 | all filter stages as one filter in loaded order (`ApplyModalFilters` and `Preselect` compute it stage by stage; `FeedShape`) |
| HomeFeed.Feed | src/pages/HomeFeed.tsx:126-168 | the list the mock path shows: the narrowed listings, sorted (`FeedMembership`, `FeedShape`, `FeedOrder`, `FeedStable`, `FeedIdempotent`) |
| HomeFeed.Refine | src/pages/HomeFeed.tsx:201-218 | the server path's client refinement of the returned rows (`FeedIsRefinedQuery`, `FeedPage.ApplyServerRows`) |
| HomeFeed.IsKind | src/pages/HomeFeed.tsx:131-133 | the chip stage's callback: the listing has the given type (`Preselect`) |
| HomeFeed.Matching | src/pages/HomeFeed.tsx:137 | the search stage's callback (`Preselect`) |
| HomeFeed.WithinMiles | src/pages/HomeFeed.tsx:142 | the distance stage's callback (`ApplyModalFilters`) |
| HomeFeed.AtLeast | src/pages/HomeFeed.tsx:147-148 | the minimum stage's callback; a NaN bound (None) keeps nothing (`ApplyModalFilters`) |
| HomeFeed.AtMost | src/pages/HomeFeed.tsx:151-152 | the maximum stage's callback; a NaN bound (None) keeps nothing (`ApplyModalFilters`) |
| HomeFeed.ConditionIn | src/pages/HomeFeed.tsx:157 | the condition stage's callback (`ApplyModalFilters`) |
| HomeFeed.Lookup | src/pages/HomeFeed.tsx:50 | `localStorage.getItem`: the stored text, or null (None) for a missing key (`ChooseCircle`, `FeedPage.SelectLocation`) |
| FilterModal.ToggleCondition | components/FilterModal.tsx:32-37 | toggling flips the condition's membership and changes no other filter |
| FilterModal.ToggleMembership | components/FilterModal.tsx:32-37 | the toggled condition is present afterwards if and only if it was absent before |
| FilterModal.ToggleOff | components/FilterModal.tsx:35 | turning a condition off removes every copy of it, keeps all other entries with their multiplicities and keeps the order |
| FilterModal.FilterKeepsCount | components/FilterModal.tsx:35 | removing one condition keeps the count of every other condition |
| FilterModal.ToggleOn | components/FilterModal.tsx:36 | turning a condition on appends it at the end of the unchanged list |
| FilterModal.ToggleTwice | components/FilterModal.tsx:32-37 | toggling twice restores the set of selected conditions, and the exact list when the condition was off |
| FilterModal.Reset | components/FilterModal.tsx:147 | the reset draft: distance 10, no price bounds, no conditions, the first sort option |
| FilterModal.Sheet.constructor | components/FilterModal.tsx:20 | the draft starts as the filters passed in at mount |
| FilterModal.Sheet.ConditionClick | components/FilterModal.tsx:32-37 | a condition chip toggles that condition in the draft (`ToggleCondition`) |
| FilterModal.Sheet.Slide | components/FilterModal.tsx:62-67 | the slider sets the draft's distance (`SlideDistance`) |
| FilterModal.Sheet.TypeMin | components/FilterModal.tsx:85-86 | the minimum box sets the draft's minimum (`EditPriceMin`) |
| FilterModal.Sheet.TypeMax | components/FilterModal.tsx:96-97 | the maximum box sets the draft's maximum (`EditPriceMax`) |
| FilterModal.Sheet.PickSort | components/FilterModal.tsx:128-134 | a sort radio sets the draft's sort (`SelectSort`) |
| FilterModal.Sheet.ResetClick | components/FilterModal.tsx:147 | Reset puts the defaults into the draft without applying them (`Reset`) |
| FilterModal.SlideDistance | components/FilterModal.tsx:62-67 | the slider's value stays within 1..50, equals the slider position inside that range, and only the distance changes |
| FilterModal.EditPriceMin | components/FilterModal.tsx:85-86 | the minimum box's text replaces only the minimum bound |
| FilterModal.EditPriceMax | components/FilterModal.tsx:96-97 | the maximum box's text replaces only the maximum bound |
| FilterModal.SelectSort | components/FilterModal.tsx:128-134 | the chosen radio's id, one of the four sort options, replaces only the sort |
| FilterModal.Toggle | components/FilterModal.tsx:34-36 | a present condition is removed, every copy; an absent one is appended (`ToggleMembership`, `ToggleOff`, `ToggleOn`, `ToggleTwice`) |
| StoryViewer.ProgressOf | components/StoryViewer.tsx:73 | progress is capped at 100, non-negative for non-negative elapsed time, and below 100 exactly while less than 5000 ms have elapsed |
| StoryViewer.PauseRoundTrip | components/StoryViewer.tsx:88 | the offset saved at a pause lies within the story's duration and turns back into the same progress |
| StoryViewer.HoldAt1200Resumes | components/StoryViewer.tsx:70-73 | a story held after 1200 ms resumes at 1200 ms |
| StoryViewer.SegmentsFillLeftToRight | components/StoryViewer.tsx:130-132 | earlier segment bars are full, later ones empty, the current one shows the progress, and no bar is fuller than one to its left |
| StoryViewer.Viewer.constructor | components/StoryViewer.tsx:22-36 | the viewer opens at the initial index with zero progress, schedules a frame, and reports that story as seen |
| StoryViewer.Viewer.SeenEffect | components/StoryViewer.tsx:32-36 | the current story's id is reported as seen |
| StoryViewer.Viewer.PlaybackEffect | components/StoryViewer.tsx:84-96 | while paused, the frame is cancelled and the played time saved; otherwise a frame is scheduled |
| StoryViewer.Viewer.Next | components/StoryViewer.tsx:39-48 | before the last story it advances with a reset timer and reports the new story as seen; on the last story it closes and changes nothing else |
| StoryViewer.Viewer.Prev | components/StoryViewer.tsx:51-63 | after the first story it steps back and reports that story as seen; on the first it only restarts the story; the timer is reset either way |
| StoryViewer.Viewer.Tick | components/StoryViewer.tsx:66-81 | one animation frame: without a scheduled frame nothing happens; otherwise progress follows the time since the segment start plus the saved offset, and reaching 100 advances or closes as Next does |
| StoryViewer.Viewer.HoldStart | components/StoryViewer.tsx:99 | pressing pauses and cancels the frame; a press that starts a pause saves the played time |
| StoryViewer.Viewer.HoldEnd | components/StoryViewer.tsx:100-104 | releasing resumes with a cleared start time and the saved offset kept, scheduling a frame when it was paused |
| StoryViewer.Viewer.Close | components/StoryViewer.tsx:147 | the close button calls the parent's close once |
| StoryViewer.Viewer.CallToAction | components/StoryViewer.tsx:176-181 | a story with a call-to-action text closes the viewer and navigates to its link when it has one; without the text nothing happens |
| StoryViewer.HoldAndRelease | components/StoryViewer.tsx:84-104 | holding then releasing a running story keeps its progress and index, and the next frame restarts the clock from the saved offset |
| StoryViewer.OffsetOf | components/StoryViewer.tsx:88 | the played time a progress percentage stands for, saved at a pause (`PauseRoundTrip`, `HoldAt1200Resumes`) |
| StoryViewer.SegmentWidth | components/StoryViewer.tsx:130-132 | the width of segment bar idx: the progress for the current story, 100 before it, 0 after it (`SegmentsFillLeftToRight`) |
| StoryViewer.Unset | components/StoryViewer.tsx:67 | `!startTimeRef.current`: a cleared start time, null or 0 (`Viewer.Tick`, `Viewer.HoldEnd`) |
| StoryViewer.Viewer.Valid | components/StoryViewer.tsx:66-96 | the viewer's invariant: a valid current index, progress within 0..100, a saved offset within the story's duration, and no frame scheduled while paused; every method keeps it |
| StoriesTray.FirstUnseen | components/StoriesTray.tsx:97 | the index of the first story whose id is not seen; None means every story is seen |
| StoriesTray.StartIndex | components/StoriesTray.tsx:97-98 | the viewer starts at the first unseen story, or at 0 when all are seen |
| StoriesTray.AnyUnseen | components/StoriesTray.tsx:117 | true exactly when some story is unseen |
| StoriesTray.HasUnseenStories | components/StoriesTray.tsx:115-118 | the coloured ring shows exactly when the community has an unseen story, never for one without stories |
| StoriesTray.UnseenRingOpensUnseen | components/StoriesTray.tsx:93-118 | tapping a ringed community opens on a story that is unseen |
| StoriesTray.StartsAtFirstUnseenExample | components/StoriesTray.tsx:97-98 | with the first of three stories seen, the viewer opens at the second |
| StoriesTray.AddSeen | components/StoriesTray.tsx:105-108 | adding an id keeps the seen list duplicate-free and in insertion order, and adds exactly that id |
| StoriesTray.AddSeenIdempotent | components/StoriesTray.tsx:107-108 | re-adding a seen id changes nothing |
| StoriesTray.AddAllSeen | components/StoriesTray.tsx:81 | building the set from a saved array keeps it duplicate-free and holds exactly the saved ids |
| StoriesTray.Dedup | components/StoriesTray.tsx:81 | the set loaded from storage is duplicate-free and has the saved ids |
| StoriesTray.DedupOfSet | components/StoriesTray.tsx:81 | adding duplicate-free ids one by one to a disjoint prefix appends them unchanged |
| StoriesTray.PersistRoundTrip | components/StoriesTray.tsx:81 | loading the array persisted from a seen set gives back the same set in the same order |
| StoriesTray.FilterCommunities | components/StoriesTray.tsx:85-91 | without a circle, or with an empty (falsy) circle id, every community shows; filtering never adds communities |
| StoriesTray.FilterCommunitiesSpec | components/StoriesTray.tsx:89 | for a circle id, a community shows if and only if it is associated with that circle, in the original order |
| StoriesTray.Tray.constructor | components/StoriesTray.tsx:20-82 | mounting stores the communities and loads the saved seen ids, if any, without duplicates |
| StoriesTray.Tray.FilterEffect | components/StoriesTray.tsx:85-91 | the shown communities follow the current circle |
| StoriesTray.Tray.StoryClick | components/StoriesTray.tsx:93-103 | a community without stories does nothing; otherwise the viewer opens on its stories at the first unseen one |
| StoriesTray.Tray.StorySeen | components/StoriesTray.tsx:105-113 | the id joins the seen set and the whole set is persisted |
| StoriesTray.Tray.CloseViewer | components/StoriesTray.tsx:187 | the viewer's close hides it |
| StoriesTray.Tray.ShownViewerHasValidIndex | components/StoriesTray.tsx:183-186 | whenever the viewer is rendered its initial index is a valid story index |
| StoriesTray.NoDuplicates | components/StoriesTray.tsx:22 | the seen ids form a set: no id twice (`AddSeen`, `Dedup`) |
| StoriesTray.Tray.Valid | components/StoriesTray.tsx:22-27 | the tray's invariant: the seen ids are duplicate-free and a non-empty story list has a valid initial index; every method keeps it |
| StoriesTray.Tray.ViewerShown | components/StoriesTray.tsx:121-190 | the viewer is mounted only in the second return: while some community is shown and the viewer is open with at least one story (`Tray.ShownViewerHasValidIndex`, `Tray.EmptyTrayHidesViewer`) |
| StoriesTray.Tray.EmptyTrayHidesViewer | components/StoriesTray.tsx:121-135 | with no community shown the empty-state panel is returned, so an open viewer is not mounted |
| StoriesTray.UnknownCircleEmptiesTray | components/StoriesTray.tsx:85-91 | a circle that no community is associated with leaves no community shown |
| Utils.UngroupGrouped | lib/utils.ts:7-10 | dropping the thousands separators from a grouped amount gives back its digits |
| Utils.AmountLabel | lib/utils.ts:7-10 | the label of a non-negative amount is at least five characters long, as "$0.00" is; its round trip is `AmountLabelRoundTrip` |
| Utils.UsdLabel | lib/utils.ts:7-10 | the label of a signed amount is at least five characters long; its round trip and injectivity are the next two rows |
| Utils.AmountLabelRoundTrip | lib/utils.ts:7-10 | reading a non-negative label back gives the cents it was made from |
| Utils.UsdLabelRoundTrip | lib/utils.ts:7-10 | reading any label back gives its signed amount in cents |
| Utils.UsdLabelInjective | lib/utils.ts:7-10 | different amounts get different labels |
| Utils.FormatPrice | lib/utils.ts:3-11 | donations read "FREE", trades "TRADE", sales their dollar label |
| Utils.SaleLabelsAreAmounts | lib/utils.ts:3-11 | a sale price never reads "FREE" or "TRADE", and two sale prices with the same label are equal |
| Utils.PlaceholderImage | lib/utils.ts:13-15 | the seed sits between the fixed picsum prefix and the "/400/400" suffix |
| Utils.PlaceholderInjective | lib/utils.ts:13-15 | different seeds give different placeholder URLs |
| Utils.MockCircles | lib/utils.ts:18-25 | four circles with distinct ids c1 to c4 |
| Utils.MockListingsFacts | lib/utils.ts:28-104 | six listings with distinct ids; donations are free; every listing has a non-negative price, a distance and a circle |
| Utils.MockListingsInMockCircles | lib/utils.ts:28-104 | every mock listing belongs to one of the mock circles |
| Utils.Grouped | lib/utils.ts:7-10 | en-US grouping: a comma before every group of three digits from the right (`UngroupGrouped`) |
| Utils.ParseAmount | lib/utils.ts:7-10 | the reader the label round trip uses: "$", grouped digits, ".", two digits, to cents; None for any other text (`AmountLabelRoundTrip`) |
| Utils.ParseUsd | lib/utils.ts:7-10 | the same reader with an optional leading minus (`UsdLabelRoundTrip`, `UsdLabelInjective`) |
| Utils.MockListings | lib/utils.ts:28-104 | the six demo listings (`MockListingsFacts`, `MockListingsInMockCircles`) |
| NotificationBell.CountUnread | src/components/NotificationBell.tsx:38 | the unread count never exceeds the number of notifications |
| NotificationBell.MarkRead | src/components/NotificationBell.tsx:42 | marking an id read flags every notification with that id and leaves all others as they were |
| NotificationBell.MarkReadCount | src/components/NotificationBell.tsx:42 | marking an id read lowers the unread count by exactly the unread notifications with that id |
| NotificationBell.ReadCountAsWritten | src/components/NotificationBell.tsx:43 | the counter as the code updates it: one less, floored at 0, whatever notification was clicked |
| NotificationBell.ReadCount | src/components/NotificationBell.tsx:41-45 | the corrected counter: less by the number of unread notifications the click marks read, floored at 0 |
| NotificationBell.ReadCountKeepsUnread | src/components/NotificationBell.tsx:41-45 | the corrected counter never drops below the true unread count, and stays equal to it when it was equal |
| NotificationBell.MockNotifications | src/components/NotificationBell.tsx:33-36 | two notifications with distinct ids |
| NotificationBell.MockHasOneUnread | src/components/NotificationBell.tsx:33-38 | the fetched demo data has exactly one unread notification |
| NotificationBell.AsWrittenHidesUnread | src/components/NotificationBell.tsx:43 | as written, clicking the already-read demo notification sets the counter to 0 while one notification is still unread |
| NotificationBell.Bell.constructor | src/components/NotificationBell.tsx:7-9 | an empty, closed bell with counter 0 |
| NotificationBell.Bell.Fetch | src/components/NotificationBell.tsx:31-39 | the demo notifications are loaded and the counter equals their unread count |
| NotificationBell.Bell.ReceiveInsert | src/components/NotificationBell.tsx:19-22 | a realtime insert is put in front and raises the counter by one |
| NotificationBell.Bell.HandleRead | src/components/NotificationBell.tsx:41-45 | the clicked id is marked read; the counter follows the corrected rule, so it keeps covering every unread notification |
| NotificationBell.Bell.ClearAll | src/components/NotificationBell.tsx:73 | the list is emptied and the counter is left as it was |
| NotificationBell.Bell.ToggleOpen | src/components/NotificationBell.tsx:58 | the bell button flips the dropdown |
| NotificationBell.Bell.CloseBackdrop | src/components/NotificationBell.tsx:69 | a click on the backdrop closes the dropdown |
| NotificationBell.Bell.UnreadShowsBadge | src/components/NotificationBell.tsx:62 | while the list holds an unread notification the red dot is shown |
| NotificationBell.IsUnread | src/components/NotificationBell.tsx:38 | `!n.is_read`, the unread test of the counter (`CountUnread`) |
| NotificationBell.UnreadWithId | src/components/NotificationBell.tsx:42 | the unread notifications a click on an id marks read (`MarkReadCount`, `ReadCount`) |
| NotificationBell.Bell.Valid | src/components/NotificationBell.tsx:38-45 | the bell's invariant: the counter is at least the number of unread notifications; every method keeps it (`Bell.HandleRead` through the corrected counter) |
| NotificationBell.Bell.BadgeShown | src/components/NotificationBell.tsx:62 | the red dot shows for a positive counter (`Bell.UnreadShowsBadge`) |
| AppLayout.Route | App.tsx:46-57 | every path that is not in the table redirects to "/home" |
| AppLayout.RouteOfPath | App.tsx:46-56 | each screen's own path renders that screen |
| AppLayout.PathOfRoute | src/App.tsx:46-56 | a path that renders a screen is exactly that screen's path |
| AppLayout.RedirectLandsHome | App.tsx:57 | a redirect lands on the home screen, which shows the bottom bar |
| AppLayout.NavFollowsScreen | App.tsx:26-36 | on every routed path the bottom bar and its padding are hidden exactly for the auth, chat, item, sell, edit-profile, settings and support screens |
| AppLayout.MessagesKeepsNav | App.tsx:26 | the conversation list shows the bottom bar; every "/messages/..." chat path hides it |
| AppLayout.IsChatDetail | App.tsx:26 | a path under "/messages/" other than "/messages" itself (`MessagesKeepsNav`) |
| AppLayout.IsProfileSubPage | App.tsx:27 | "/profile/edit", "/settings" or "/support" (`NavFollowsScreen`) |
| AppLayout.HideNav | App.tsx:29 | the bar hides for paths containing "/items/", for "/sell", "/", chat paths and profile sub-pages (`NavFollowsScreen`, `MessagesKeepsNav`) |
| AppLayout.HasBottomPadding | App.tsx:33 | the content gets its bottom padding exactly when the bar is not hidden (`NavFollowsScreen`) |
| AppLayout.ShowsBottomNav | App.tsx:36 | the bar renders exactly when it is not hidden (`NavFollowsScreen`, `RedirectLandsHome`) |
| AppLayout.IsSegment | App.tsx:50-55 | a `:id` route parameter: one non-empty segment without a slash (`Route`) |
| AppLayout.PathOf | App.tsx:46-56 | the path each screen is mounted at (`RouteOfPath`, `PathOfRoute`) |
| AppLayout.Addressable | App.tsx:50-55 | a screen whose ids are single segments, so it has a path (`RouteOfPath`) |
| AppLayout.HidesNav | App.tsx:26-36 | the screens without the bar: sign-in, chat, item, sell, edit-profile, settings and support (`NavFollowsScreen`) |
| SellFlow.RoundHalfUp | src_pages/SellFlow.tsx:137 | the result is the nearest integer, halves rounded up |
| SellFlow.RoundWhole | src_pages/SellFlow.tsx:137 | rounding leaves integers unchanged |
| SellFlow.PriceCents | src_pages/SellFlow.tsx:137 | trades and donations are posted at 0 cents; a sale's price is missing (NaN) exactly when the price text, with "0" for an empty box, does not parse |
| SellFlow.SalePriceNearest | src_pages/SellFlow.tsx:137 | a parsable sale price is posted as the whole number of cents nearest to 100 times its value |
| SellFlow.EmptySalePriceIsZero | src_pages/SellFlow.tsx:137 | an empty price box on a sale is posted as 0 cents |
| SellFlow.PriceTextValue | src_pages/SellFlow.tsx:87 | the price text the analysis fills in, `(cents / 100).toString()`, reads as a decimal numeral as exactly cents / 100, for negative amounts too |
| SellFlow.AiPriceRoundTrip | src_pages/SellFlow.tsx:86-87 | with a `parseFloat` that reads decimal numerals as the numbers they show, a price filled in from AI cents and posted again yields the same cents |
| SellFlow.MockPriceText | src_pages/SellFlow.tsx:60 | the canned 4500 cents fill the price box with "45" |
| SellFlow.BuildListing | src_pages/SellFlow.tsx:126-138 | the posted record is ACTIVE, has the form's type, text fields and seller, the saved circle when it is non-empty (otherwise none), and the price rule's cents |
| SellFlow.MediaRows | src_pages/SellFlow.tsx:156-162 | one media row per photo, in order, each pointing at the new listing |
| SellFlow.SellerOf | src_pages/SellFlow.tsx:111-115 | the signed-in user's id, otherwise "current-user" |
| SellFlow.SavedCircle | src_pages/SellFlow.tsx:126 | the id stored under "kbs_preferred_circle" when there is one |
| SellFlow.SellForm.constructor | src_pages/SellFlow.tsx:16-26 | an empty sale form with condition "Used - Good" that has sent nothing |
| SellFlow.SellForm.SetImages | src_pages/SellFlow.tsx:200 | the grid's new photo list replaces the form's |
| SellFlow.SellForm.ChangeTab | src_pages/SellFlow.tsx:191-194 | the tab switches; the Donate tab also sets the price to "0" |
| SellFlow.SellForm.ApplyAiData | src_pages/SellFlow.tsx:81-89 | each non-empty analysed field overwrites its form field; the price is filled only for a non-zero price on the sale tab |
| SellFlow.SellForm.Enhance | src_pages/SellFlow.tsx:36-79 | with no photo only the alert; a data-URL photo gets the disabled service's answer (only the condition can change); any other photo gets the canned details and "45" on the sale tab |
| SellFlow.SellForm.Submit | src_pages/SellFlow.tsx:92-174 | a blank title and then a missing photo are refused with their alerts and nothing sent; otherwise the record is inserted, one media row per photo follows when the insert returned an id (else the demo alert), and the page goes home |
| SellFlow.SellForm.Post | src_pages/SellFlow.tsx:104-171 | the record as the form stood is appended to the inserts, one media row per photo follows when the insert returned an id (else the demo alert), and the page goes home |
| SellFlow.DonationPostsFree | src_pages/SellFlow.tsx:137 | a form posted from the Donate tab inserts one free donation whatever price was typed before |
| SellFlow.DollarText | src_pages/SellFlow.tsx:87 | the digits of a non-negative `cents / 100`: whole dollars, then the cents without trailing zeros (`DollarTextValue`, `PriceTextValue`) |
| SellFlow.PriceText | src_pages/SellFlow.tsx:87 | `(cents / 100).toString()`, a minus sign before a negative amount (`PriceTextValue`, `AiPriceRoundTrip`, `MockPriceText`) |
| SellFlow.ServiceStub | src_pages/SellFlow.tsx:69 | the answer of the disabled analysis service: only the condition "Used - Good" is non-empty (`SellForm.Enhance`) |
| SellFlow.MockAiResponse | src_pages/SellFlow.tsx:56-62 | the canned answer for remote photos (`MockPriceText`, `SellForm.Enhance`) |
| SellFlow.SellForm.SubmitEnabled | src_pages/SellFlow.tsx:294 | the post button is enabled while neither a submit nor an analysis is in flight |
| SellFlow.SellForm.EnhanceEnabled | src_pages/SellFlow.tsx:307 | the enhance button is enabled while nothing is in flight and there is a photo |
| SellFlow.SellForm.Posted | src_pages/SellFlow.tsx:126-138 | the record the form posts for a session (`BuildListing`, `SellForm.Submit`, `DonationPostsFree`) |
| ImageGridUpload.RemoveImage | src/components/ImageGridUpload.tsx:56-58 | removing tile k drops exactly that photo; an index outside the list changes nothing |
| ImageGridUpload.RemoveImageShape | src/components/ImageGridUpload.tsx:56-58 | after removing tile k the photos before it are unchanged and those after it move one place left |
| ImageGridUpload.Extension | src/components/ImageGridUpload.tsx:23 | the extension contains no dot; it is the whole name when there is no dot, and otherwise what follows the last dot |
| ImageGridUpload.StoragePath | src/components/ImageGridUpload.tsx:24 | the stored file keeps the uploaded file's extension |
| ImageGridUpload.PlaceholderTiles | src/components/ImageGridUpload.tsx:99 | placeholder tiles are drawn exactly when there is no photo |
| ImageGridUpload.Grid.constructor | src/components/ImageGridUpload.tsx:10-12 | the grid starts idle with the parent's photos |
| ImageGridUpload.Grid.HandleUpload | src/components/ImageGridUpload.tsx:14-53 | no file does nothing; otherwise the public URL, or a non-empty data URL after a storage error, is appended; an exception only alerts; the busy flag and the input are reset |
| ImageGridUpload.Grid.Remove | src/components/ImageGridUpload.tsx:56-58 | the remove button hands the parent the list without that tile |
| Messages.OtherId | src_pages/Messages.tsx:83 | the other participant: the second when the user is the first, otherwise the first |
| Messages.OtherIdIsPartner | src_pages/Messages.tsx:83 | for a user in a conversation between two different people, the other id is never the user's own |
| Messages.FallbackUser | src_pages/Messages.tsx:85-90 | an unknown partner is named "User " plus at most the first four characters of the id, in city "Unknown", with a ui-avatars URL |
| Messages.FallbackNamesDistinguish | src_pages/Messages.tsx:87 | two fallback names are equal exactly when the ids share their first four characters |
| Messages.Enrich | src_pages/Messages.tsx:82-98 | only the other user is set: the looked-up user when found, otherwise the fallback |
| Messages.EnrichAll | src_pages/Messages.tsx:82-101 | every row is enriched, in order |
| Messages.AgeOf | src_pages/Messages.tsx:151-155 | the time bucket: under a minute, minutes (1 to 59), hours (1 to 23), or older; the count is the floor of the age in that unit |
| Messages.AgeMonotone | src_pages/Messages.tsx:148-157 | an older message never gets a label for a more recent time |
| Messages.Label | src_pages/Messages.tsx:153-156 | the under-a-minute bucket reads "Just now"; the other buckets are pinned down by `LabelShape` |
| Messages.FormatTime | src_pages/Messages.tsx:148-157 | under a minute reads "Just now"; under an hour the whole minutes then "m ago"; under a day the whole hours then "h ago"; a day or more shows the date text |
| Messages.LabelsDistinguishAges | src_pages/Messages.tsx:153-155 | within a day two ages get the same label exactly when they fall in the same bucket |
| Messages.LabelShape | src_pages/Messages.tsx:153-155 | a minutes or hours label is the decimal count (starting with a digit) followed by exactly "m ago" or "h ago"; "Just now" starts with a letter |
| Messages.UnreadBadge | src_pages/Messages.tsx:221 | the badge shows exactly for a positive unread count |
| Messages.DisplayName | src_pages/Messages.tsx:209 | a row always shows a name: the other user's when non-empty |
| Messages.EnrichedRowsNamed | src_pages/Messages.tsx:85-93 | a row whose partner was not found shows the fallback name |
| Messages.MockConversations | src_pages/Messages.tsx:105-142 | two demo rows; the first has one unread message, the second none; their partners are u2 and u3 |
| Messages.Inbox.constructor | src_pages/Messages.tsx:9-11 | the inbox starts loading, with no user and no conversations |
| Messages.Inbox.ResolveUser | src_pages/Messages.tsx:13-30 | the signed-in user's id, otherwise "current-user" |
| Messages.Inbox.Fetch | src_pages/Messages.tsx:63-146 | fetched rows are enriched; a failure shows the demo rows; loading ends either way |
| Messages.Inbox.Open | src_pages/Messages.tsx:191 | tapping a row navigates to its chat |
| Messages.Rank | src_pages/Messages.tsx:153-156 | the order of the time buckets, from "Just now" to a date (`AgeMonotone`) |
| ChatDetail.MockThread | pages/ChatDetail.tsx:58-62 | three read demo messages in the conversation; only the middle one is the viewer's |
| ChatDetail.Optimistic | pages/ChatDetail.tsx:92-105 | the optimistic message is the viewer's, unread, in this conversation, with the temporary id and trimmed non-empty content |
| ChatDetail.Chat.constructor | pages/ChatDetail.tsx:10-13 | the chat starts loading, with no messages and an empty draft |
| ChatDetail.Chat.Type | pages/ChatDetail.tsx:205 | the typed text becomes the draft |
| ChatDetail.Chat.Fetch | pages/ChatDetail.tsx:28-66 | without an id nothing happens; otherwise the demo partner is shown, the rows (or none for a null body, or the demo thread after an error) are shown, and loading ends |
| ChatDetail.Chat.ReceiveInsert | pages/ChatDetail.tsx:76-79 | with an id, a realtime message is appended at the end |
| ChatDetail.Chat.Send | pages/ChatDetail.tsx:88-128 | a blank draft or a missing id does nothing; otherwise the optimistic message is appended, the draft cleared, the trimmed text inserted, and the conversation's last message updated only when the insert succeeded |
| ChatDetail.Chat.KeyDown | pages/ChatDetail.tsx:130-135 | Enter without Shift prevents the default and does what Send does: nothing for a blank draft or a missing id, otherwise the optimistic message, the cleared draft, the sent row and, when the insert succeeds, the conversation update; any other key changes nothing |
| ChatDetail.SendShowsMine | pages/ChatDetail.tsx:88-106 | sending a non-blank draft appends exactly one message, the viewer's own, keeps the earlier ones, and clears the draft |
| ChatDetail.IsMe | pages/ChatDetail.tsx:179 | a message is the viewer's when its sender is "current-user" (`MockThread`, `Optimistic`, `SendShowsMine`) |
| ChatDetail.HasId | pages/ChatDetail.tsx:29 | `!id` is false: the route parameter is present and non-empty (`Chat.Fetch`, `Chat.Send`) |
| ChatDetail.DemoPartner | pages/ChatDetail.tsx:37-45 | the hard-coded profile of the other participant (`Chat.Fetch`) |
| ChatDetail.SendEnabled | pages/ChatDetail.tsx:211 | the send button is enabled for a non-blank draft, the same test `Chat.Send` makes |
| Support.ToggleFaq | src_pages/Support.tsx:63 | clicking the open question closes it; clicking any other question opens that one |
| Support.ToggleTwice | src_pages/Support.tsx:63 | two clicks on the same question leave it as open or closed as before, with every other question closed |
| Support.Shown | src_pages/Support.tsx:69 | an answer shows exactly for the open question |
| Support.AtMostOneAnswer | src_pages/Support.tsx:60-73 | at most one answer is ever shown; after a click, the clicked answer alone, or none if it was open |
| Support.SupportPage.constructor | src_pages/Support.tsx:7-8 | the first question starts open and the message box is empty |
| Support.SupportPage.ClickFaq | src_pages/Support.tsx:63 | the clicked question toggles, so the clicked answer alone is shown or none |
| Support.SupportPage.Type | src_pages/Support.tsx:87 | the typed text becomes the message |
| Support.SupportPage.Send | src_pages/Support.tsx:29-34 | a blank message does nothing; otherwise the confirmation alert is shown and the box cleared |
| Text.BlankIffTrimmedEmpty | src/pages/HomeFeed.tsx:135 | a string is whitespace-only exactly when trimming empties it (the `trim()` truthiness test used by the feed, the sell form, the chat and the support page) |
| Text.AfterLast | src/components/ImageGridUpload.tsx:23 | the text after the last separator is a separator-free suffix, preceded by the separator when shorter than the whole |
| Text.IsSpace | src/pages/HomeFeed.tsx:135 | the ECMAScript white space and line terminators that `trim` strips (`BlankIffTrimmedEmpty`) |
| Text.TrimStart | src/pages/HomeFeed.tsx:135 | drops the leading white space: the result is a suffix, empty or starting with a non-space |
| Text.TrimEnd | src/pages/HomeFeed.tsx:135 | drops the trailing white space: the result is a prefix, empty or ending with a non-space |
| Text.Trim | src/pages/HomeFeed.tsx:135 | `trim()`: both ends stripped; empty exactly for a blank string (`BlankIffTrimmedEmpty`, `ChatDetail.Optimistic`) |
| Text.IsBlank | src/pages/HomeFeed.tsx:135 | `!s.trim()`: every character is white space (`BlankIffTrimmedEmpty`) |
| Text.IsPrefix | App.tsx:26 | p is as many leading characters of s as p is long |
| Text.StartsWith | App.tsx:26 | `startsWith`: the prefix test (`AppLayout.Route`, `AppLayout.MessagesKeepsNav`) |
| Text.Contains | App.tsx:29 | `includes`: the text occurs at some position (`ContainsAt`, `ContainsLength`, `ContainsHasChars`) |
| Text.LowerChar | src/pages/HomeFeed.tsx:136 | maps A to Z onto a to z and leaves every other character |
| Text.ToLower | src/pages/HomeFeed.tsx:136-137 | `toLowerCase()`: same length, each character lowered |
| Text.Take | src_pages/Messages.tsx:87 | `substring(0, n)`: the first n characters, or all of a shorter string (`Messages.FallbackUser`) |
| Sorting.SortBySorted | src/pages/HomeFeed.tsx:161-167 | the key-difference sort leaves the keys in non-decreasing order |
| Sorting.SortByStable | src/pages/HomeFeed.tsx:161-167 | elements with equal keys keep their order |
| Sorting.Sorted | src/pages/HomeFeed.tsx:161-167 | keys non-decreasing along the sequence (`SortBySorted`) |
| Sorting.Insert | src/pages/HomeFeed.tsx:161-167 | puts an element before the first one with a key not smaller, adding it to the multiset (`InsertSorted`) |
| Sorting.SortBy | src/pages/HomeFeed.tsx:161-167 | the stable key-difference sort: a permutation (`SortBySorted`, `SortByStable`, `SortBySortedIsIdentity`) |
| Seqs.Filter | src/pages/HomeFeed.tsx:128 | `Array.prototype.filter`: at most as long, every element passes (`FilterMembers`, `FilterIsSubsequence`, `FilterFilter`) |
| Seqs.FilterIf | src/pages/HomeFeed.tsx:141-143 | a stage that the filter value may switch off (`FilterIfFilter`) |
| Decimal.NatToStringRoundTrip | src_pages/Messages.tsx:154-155 | the decimal rendering of a count reads back as that count |
| Decimal.NatToString | src_pages/Messages.tsx:154-155 | `String(n)` for a count: digits, no sign, no leading zero (`NatToStringRoundTrip`, `NatToStringInjective`) |
| Decimal.DigitsValue | src_pages/Messages.tsx:154-155 | the number a digit string denotes, the reader of `NatToStringRoundTrip` |
| Decimal.TwoDigits | lib/utils.ts:7-10 | the two-digit cents field with a leading zero (`TwoDigitsRoundTrip`) |
| Decimal.FractionValue | src/pages/HomeFeed.tsx:147 | the value of the digits after a decimal point (`SellFlow.TenthsFraction`, `SellFlow.HundredthsFraction`) |
| Decimal.UnsignedDecimalValue | src/pages/HomeFeed.tsx:147 | the value `parseFloat` gives an unsigned decimal numeral; None for other text (`UnsignedDecimalOfParts`) |
| Decimal.DecimalValue | src/pages/HomeFeed.tsx:147 | the same with an optional minus sign (`DecimalSign`, `SellFlow.PriceTextValue`) |
| Decimal.ReadsDecimals | src_pages/SellFlow.tsx:137 | a number parser that agrees with `DecimalValue` on every decimal numeral, the assumption of `SellFlow.AiPriceRoundTrip` |

## Left out

- Backend I/O: Supabase queries, inserts, storage uploads, auth and realtime channels. What they return is a parameter: rows or `None` for an error, an inserted id, a user id. The server-side query of the feed is not modelled: status "ACTIVE", circle, chip type, the title-only `ilike` search and the `created_at` order. The server rows are an input of `ApplyServerRows`.
- React scheduling: effects and state updates are explicit method calls in the order React runs them. For example, the feed's filter effect is `RunClientFilter` or `ApplyServerRows` after a setter. An async handler runs to completion in one call. Re-renders are not modelled, and with them goes a loop: the tray passes a new `handleStorySeen` closure on every render (components/StoriesTray.tsx:105, 188). The viewer's seen effect depends on `onStorySeen` (components/StoryViewer.tsx:32-36), so it fires again after each render. Each firing stores a new `Set` and rewrites "seenStories" in localStorage, which renders the tray again. `StoryViewer.Viewer.SeenEffect` models one report per change of the current index. `StoriesTray.AddSeenIdempotent` shows that the repeated reports leave the seen ids unchanged; the repeated renders and writes are not modelled.
- HomeFeed.FeedPage.LoadCircles: the choice between live and mock circles is an input (the loaded list).
- HomeFeed.FeedPage.ApplyFilters: the sheet's draft is modelled as the code keeps it. It is read from the feed's filters only once, so after "Clear Filters" the sheet still shows, and Apply restores, the last applied or edited draft (`HomeFeed.ClearedDistanceComesBack`). A sheet that re-reads the feed's filters each time it opens is not modelled, because the code does not say which of the two is meant.
- HomeFeed.FeedPage.RunClientFilter: mock and live mode are separate methods, not one effect with an `isSupabaseConfigured()` branch.
- The clock and randomness are parameters: `Date.now`, ISO timestamps, `Math.random` temporary ids and upload tokens, and animation-frame timestamps, which are whole milliseconds. The story header's "Yesterday/Today" text is left out because it depends on the clock. One handler call reads the clock once: `ChatDetail.Chat.Send` uses the same `now` for the optimistic message's `created_at` (pages/ChatDetail.tsx:102) and the conversation's `last_message_at` (pages/ChatDetail.tsx:120), which the source takes from two `new Date()` calls.
- `parseFloat` is a parameter. The model uses exact real arithmetic and does not cover binary floating-point error in `* 100` or in `Math.round`.
- SellFlow.AiPriceRoundTrip: assumes that `parseFloat` agrees with `Decimal.DecimalValue` on decimal numerals (digits, an optional dot and fraction digits, an optional leading minus sign). `parseFloat`'s handling of other text (exponents, leading whitespace, trailing garbage) is not modelled.
- `Intl.NumberFormat` is foreign. `Utils.UsdLabel` is an explicit en-US rendering; negatives are modelled as "-$1.00".
- `toLowerCase` is modelled on ASCII letters only. Unicode case mapping and Unicode whitespace beyond the set listed in `Text.IsSpace` are left out.
- StoryViewer.Viewer.constructor: requires a valid initial index. The component renders nothing when `stories[initialIndex]` is undefined. Its only caller, the tray, always passes a valid index (`StoriesTray.Tray.ShownViewerHasValidIndex`).
- StoryViewer.Viewer.Tick: `requestAnimationFrame` is a flag meaning "a frame is scheduled". Cancelling a frame clears the flag.
- StoriesTray.Tray.constructor: the hard-coded demo communities are passed in. The saved seen ids are the array already parsed from JSON; malformed JSON is not modelled.
- The stories tray's empty-state panel and the "Join +" tile are drawn by no member. The panel's one effect on the model is that it replaces the whole tray, so an open viewer is unmounted while no community is shown (`StoriesTray.Tray.ViewerShown`). The viewer's own state is then lost; when communities show again a new `StoryViewer.Viewer` starts at `initialStoryIndex`, which is not modelled as a separate step.
- NotificationBell.Bell.HandleRead: follows the corrected counter. The code as written is `NotificationBell.ReadCountAsWritten` (see Findings). The database update mentioned in the source is commented out and not modelled.
- SellFlow.SellForm.Submit: the "Please log in to post." alert is left out because it depends on build-time environment variables. An insert that reports no error but returns no row counts as a failed insert and gets the demo alert; with `.single()` such a reply does not occur.
- The busy flags (`isSubmitting`, `isEnhancing`) only appear in the enabling predicates, because each handler runs to completion in one call.
- The text inputs for title, description, price, condition and category are plain field assignments with no rule of their own.
- SellFlow.SellForm.Enhance: the enhance button is commented out in the page, but the handler is modelled. The AI service is the disabled stub in `services/geminiService.ts`, which never throws, so the "AI could not analyze" alert cannot occur.
- ImageGridUpload.Grid.HandleUpload: only the first chosen file is used. The storage path, `Date.now()` plus a random token plus the extension, is stated by `StoragePath`. The asynchronous `FileReader` result is an input.
- Messages.FallbackUser: the fallback user's zip and numeric fields are absent (undefined) in the source; the model sets them to "" and 0.
- `toLocaleDateString` is a parameter (`dateText`).
- The conversation realtime refetch and the chat's scroll-to-bottom are left out; they are I/O and presentation.
- AppLayout.Route: exact, case-sensitive path matching. Trailing-slash and case-insensitive matching of the router, URL decoding of `:id` and the hash prefix are not modelled.
- Support: the back button (`navigate(-1)`) is left out; it is browser history.
- The database row types keep only the fields these rules read or write.

## Findings

| source | as written | input that shows it | evidently intended | confidence | as-written member | corrected member |
|---|---|---|---|---|---|---|
| src/components/NotificationBell.tsx:43 | marking a notification read always lowers the unread counter by one (floored at 0), even when the clicked notification was already read | the demo data: notification "1" unread, "2" read; clicking "2" sets the counter from 1 to 0 while "1" is still unread, so the red dot disappears | lower the counter only when the clicked notification was unread | not executed | NotificationBell.AsWrittenHidesUnread | NotificationBell.ReadCountKeepsUnread |
