# Verified model of the demo apps' state logic

This project models, in Dafny, the state logic of a set of demo mobile apps.

The main part is the personal finance tracker's ledger:

- **The ledger container** (`FinanceProvider`) holds three insertion-ordered sequences: assets, expenses and incomes. Each add builds a record from the caller's fields plus an id and a date. It appends the record to its sequence, installs the new ledger and hands the same snapshot to persistence.
- **Net worth** is assets + incomes − expenses.
- **The home screen's asset breakdown** gives a total per asset type.
- **The transaction history** merges the three sequences into signed, described transactions, sorts them newest first, and filters them to "all time" or "this month".
- **The three add forms** only call the ledger when their required fields are non-empty.

Around it are small state updates from the other apps:

- the video comment sheet (like toggle, posting a trimmed comment);
- the fashion store's wishlist hearts and category bar;
- the short-video like button;
- the streaming app's player controls (skip clamps, play/pause, full screen, controls toggle);
- the streaming app's featured carousel (wrap-around auto-advance, play guard, pagination dots).

Modelling choices:

- Amounts are exact `real`s.
- Dates are integer instants in milliseconds.
- Each call's generated id, timestamp, month start and `parseFloat` are parameters.

Every operation that replaces component state is a class method, with one exception: the transaction list's time filter (set by its two buttons) is the `Filter` parameter of `Displayed`, whose initial value is `DefaultFilter`. That screen only computes its list from the ledger and the filter. A method's `ensures` gives the whole new state in terms of a pure function of the old state. The lemmas are stated about those functions.

Files, one module each:

| file | module | models |
|---|---|---|
| wrappers.dfy | `Wrappers` | Option / Result |
| summation.dfy | `Summation` | the `reduce` amount fold and its algebra (append, concatenation, permutation, image) |
| finance_types.dfy | `FinanceTypes` | record shapes, enumerations, "record without id and date" drafts |
| finance_context.dfy | `FinanceContext` | the ledger container, net worth, `useFinance` |
| finance_home.dfy | `FinanceHome` | `getAssetsByType` |
| transaction_list.dfy | `TransactionList` | projection, newest-first sort, time filter, icons |
| add_asset_screen.dfy, add_income_screen.dfy, add_expense_screen.dfy | `AddAsset`, `AddIncome`, `AddExpense` | the add forms |
| comment_sheet.dfy | `CommentSheet` | comment likes, posting, `String.prototype.trim` |
| wishlist_home.dfy | `WishlistHome` | wishlist toggle, category selection |
| video_feed.dfy | `VideoFeed` | the like button |
| video_player.dfy | `VideoPlayer` | player controls |
| video_carousel.dfy | `VideoCarousel` | featured carousel |

Two facts about the code shape the model:

- Record identifiers are not unique. The code derives them from `Date.now()`, so two adds in the same millisecond get the same id. The model takes the id as a parameter and claims no uniqueness; equal records give equal transactions, and the lemmas about the transaction list count every copy.
- The screens' guards test JavaScript truthiness of the raw strings. So a name of only spaces, or an amount that does not parse, passes the guard. The model follows that.

## Model

| member | source | states |
|---|---|---|
| FinanceContext.FinanceProvider.constructor | projects/finance-tracker/src/FinanceContext.tsx:18-22 | the ledger starts with three empty sequences, nothing saved, net worth 0 |
| FinanceContext.NetWorthOfEmptyLedger | projects/finance-tracker/src/FinanceContext.tsx:89-94 | the net worth of the empty ledger is 0 |
| FinanceContext.NetWorth | projects/finance-tracker/src/FinanceContext.tsx:89-94 | how `calculateNetWorth` totals the ledger: asset and income amounts added, expense amounts subtracted; what it promises is stated by the NetWorthAfter* and NetWorthOrderIndependent lemmas |
| FinanceContext.FinanceProvider.CurrentNetWorth | projects/finance-tracker/src/FinanceContext.tsx:103 | the context's `netWorth` value, computed from the current ledger; the add methods state how it moves |
| FinanceContext.FinanceProvider.AddAsset | projects/finance-tracker/src/FinanceContext.tsx:47-59 | assets grows by exactly the record made of the caller's fields plus the given id and date; expenses and incomes are unchanged; the saved snapshot is the installed one; net worth rises by the amount |
| FinanceContext.FinanceProvider.AddExpense | projects/finance-tracker/src/FinanceContext.tsx:61-73 | expenses grows by exactly the new record; the other two sequences are unchanged; the saved snapshot is the installed one; net worth falls by the amount |
| FinanceContext.FinanceProvider.AddIncome | projects/finance-tracker/src/FinanceContext.tsx:75-87 | incomes grows by exactly the new record; the other two sequences are unchanged; the saved snapshot is the installed one; net worth rises by the amount |
| FinanceContext.AppendOnly | projects/finance-tracker/src/FinanceContext.tsx:53-84 | each append adds one record at the end of its own sequence; the old sequence is a prefix of the new one; the other sequences are identical |
| FinanceContext.NetWorthAfterAsset | projects/finance-tracker/src/FinanceContext.tsx:89-94 | adding an asset of amount a raises net worth by a |
| FinanceContext.NetWorthAfterExpense | projects/finance-tracker/src/FinanceContext.tsx:89-94 | adding an expense of amount a lowers net worth by a |
| FinanceContext.NetWorthAfterIncome | projects/finance-tracker/src/FinanceContext.tsx:89-94 | adding an income of amount a raises net worth by a |
| FinanceContext.NetWorthOrderIndependent | projects/finance-tracker/src/FinanceContext.tsx:89-94 | permuting any of the three sequences leaves net worth unchanged |
| FinanceContext.ApplyAllNetWorth | projects/finance-tracker/src/FinanceContext.tsx:47-94 | after any run of adds, net worth is the old net worth plus the signed amounts added, and every old sequence is a prefix of the new one |
| FinanceContext.NetWorthFromScratch | projects/finance-tracker/src/FinanceContext.tsx:18-94 | from the empty ledger, net worth equals the signed sum of all amounts added |
| FinanceContext.UseFinance | projects/finance-tracker/src/FinanceContext.tsx:111-117 | reading the context succeeds exactly when a provider is present and returns its value; otherwise it is the "must be used within a FinanceProvider" error |
| FinanceTypes.NewRecordsKeepDraft | projects/finance-tracker/src/FinanceContext.tsx:48-52 | a new record carries the given id and date, and dropping them gives back exactly the caller's fields |
| FinanceTypes.RecordsFromDrafts | projects/finance-tracker/src/types.ts:1-23 | every record is exactly its caller fields plus its id and date |
| FinanceTypes.NamesDistinct | projects/finance-tracker/src/types.ts:5-21 | the asset type literals and the frequency literals are pairwise distinct |
| FinanceHome.OfTypeExact | projects/finance-tracker/src/HomeScreen.tsx:21 | the filter keeps exactly the assets of the requested type |
| FinanceHome.OfType | projects/finance-tracker/src/HomeScreen.tsx:21 | the filter step of `getAssetsByType`; what it keeps is stated by OfTypeExact and OfTypeMultiset |
| FinanceHome.AssetsByType | projects/finance-tracker/src/HomeScreen.tsx:20-23 | `getAssetsByType`: the amount total of the assets of one type; its properties are the AssetsByType* and Breakdown* lemmas |
| FinanceHome.AssetsByTypeAppend | projects/finance-tracker/src/HomeScreen.tsx:20-23 | appending an asset adds its amount to its own type's total and leaves every other type's total unchanged |
| FinanceHome.AssetsByTypeNone | projects/finance-tracker/src/HomeScreen.tsx:22 | the total is 0 when no asset has that type |
| FinanceHome.BreakdownCoversAll | projects/finance-tracker/src/HomeScreen.tsx:47-49 | the equity, mutual fund and other totals add up to the total of all assets |
| FinanceHome.BreakdownIgnoresFlows | projects/finance-tracker/src/HomeScreen.tsx:20-23 | adding an expense or an income leaves every type's total unchanged |
| FinanceHome.OfTypeMultiset | projects/finance-tracker/src/HomeScreen.tsx:21 | the filter keeps each asset of the type with its multiplicity and drops every other asset |
| FinanceHome.AssetsByTypeOrderIndependent | projects/finance-tracker/src/HomeScreen.tsx:21-22 | the total does not depend on the order of the assets |
| TransactionList.IconMap | projects/finance-tracker/src/TransactionList.tsx:35-46 | asset gives briefcase, expense gives arrow-down, income gives arrow-up, any other string gives circle |
| TransactionList.TransactionIcon | projects/finance-tracker/src/TransactionList.tsx:35-46 | `getTransactionIcon`; its mapping, default included, is stated by IconMap |
| TransactionList.Projected | projects/finance-tracker/src/TransactionList.tsx:48-73 | the unsorted merge of the three projected sequences; its shape is stated by ProjectedShape and its sum by ProjectedSumsToNetWorth |
| TransactionList.SortNewestFirst | projects/finance-tracker/src/TransactionList.tsx:73-74 | the descending-date sort; SortNewestFirstCorrect states that it is sorted and a permutation |
| TransactionList.AllTransactions | projects/finance-tracker/src/TransactionList.tsx:48-75 | `getAllTransactions`: the sorted merge; AllTransactionsCorrect and AllTransactionsFromRecords state what it holds |
| TransactionList.ProjectedShape | projects/finance-tracker/src/TransactionList.tsx:48-73 | the projection lists assets, then expenses, then incomes; each keeps its record's id and date and gets its kind; the expense amount is negated; descriptions are "name (type)", "category: description" and "source (frequency)" |
| TransactionList.ProjectedSumsToNetWorth | projects/finance-tracker/src/TransactionList.tsx:48-73 | the signed amounts of the projection add up to the net worth |
| TransactionList.SortNewestFirstCorrect | projects/finance-tracker/src/TransactionList.tsx:73-74 | the sort returns a permutation of its input in which no transaction is older than one after it |
| TransactionList.AllTransactionsCorrect | projects/finance-tracker/src/TransactionList.tsx:48-75 | the merged list has length assets + expenses + incomes, is newest first, is a permutation of the projected concatenation, and its signed amounts add up to the net worth |
| TransactionList.AllTransactionsFromRecords | projects/finance-tracker/src/TransactionList.tsx:48-73 | a transaction is in the merged list exactly when it is the projection of some asset, expense or income in the ledger |
| TransactionList.SinceExact | projects/finance-tracker/src/TransactionList.tsx:77-86 | "this month" keeps exactly the transactions dated on or after the month start, every copy of each (same multiplicity as in the input) and none of the others, as an order-keeping subsequence |
| TransactionList.Since | projects/finance-tracker/src/TransactionList.tsx:81-83 | the "this month" filter by date; SinceExact states what it keeps |
| TransactionList.FilterTransactions | projects/finance-tracker/src/TransactionList.tsx:77-86 | `filterTransactions`: the list unchanged for "all", the dated filter for "this month" |
| TransactionList.SubsequenceNewestFirst | projects/finance-tracker/src/TransactionList.tsx:81-83 | an order-keeping subsequence of a newest-first list is newest first and draws only on that list |
| TransactionList.DisplayedCorrect | projects/finance-tracker/src/TransactionList.tsx:77-88 | "all" shows the merged list unchanged; "this month" shows exactly its transactions since the month start, each as many times as in the merged list; either way the result is a newest-first subsequence of the merged list |
| TransactionList.Displayed | projects/finance-tracker/src/TransactionList.tsx:17-88 | the list the screen shows for a filter value (initially `DefaultFilter`, "this month"); DisplayedCorrect states what it holds |
| TransactionList.WorkedExampleAllTime | projects/finance-tracker/src/TransactionList.tsx:48-88 | an asset of 100, an expense of 40 and an income of 50 dated now give three transactions under "all time": the expense at −40 and the other two positive |
| TransactionList.WorkedExampleThisMonth | projects/finance-tracker/src/TransactionList.tsx:77-86 | "this month" drops a record dated before the month start and keeps one dated now |
| AddAsset.AddAssetScreen.constructor | projects/finance-tracker/src/AddAssetScreen.tsx:7-9 | the form opens with empty name and amount and the equity type |
| AddAsset.AddAssetScreen.SetName | projects/finance-tracker/src/AddAssetScreen.tsx:50 | typing replaces the name field with the input's text and changes nothing else |
| AddAsset.AddAssetScreen.SetAmount | projects/finance-tracker/src/AddAssetScreen.tsx:61 | typing replaces the amount field with the input's text and changes nothing else |
| AddAsset.AddAssetScreen.PressTypeButton | projects/finance-tracker/src/AddAssetScreen.tsx:28-31 | a type button replaces the selected type with its own value |
| AddAsset.AddAssetScreen.HandleSubmit | projects/finance-tracker/src/AddAssetScreen.tsx:17-26 | it adds the asset (current name, parsed amount, current type) and goes back exactly when name and amount are non-empty; otherwise the ledger and the saved snapshot are untouched and there is no navigation |
| AddIncome.AddIncomeScreen.constructor | projects/finance-tracker/src/AddIncomeScreen.tsx:7-9 | the form opens with empty source and amount and the monthly frequency |
| AddIncome.AddIncomeScreen.SetSource | projects/finance-tracker/src/AddIncomeScreen.tsx:53 | typing replaces the source field with the input's text and changes nothing else |
| AddIncome.AddIncomeScreen.SetAmount | projects/finance-tracker/src/AddIncomeScreen.tsx:64 | typing replaces the amount field with the input's text and changes nothing else |
| AddIncome.AddIncomeScreen.PressFrequencyButton | projects/finance-tracker/src/AddIncomeScreen.tsx:23-29 | a frequency button sets the frequency to its own value |
| AddIncome.AddIncomeScreen.HandleSubmit | projects/finance-tracker/src/AddIncomeScreen.tsx:12-21 | it adds the income (current source, parsed amount, current frequency) and goes back exactly when source and amount are non-empty; otherwise nothing changes |
| AddExpense.CategoriesWellFormed | projects/finance-tracker/src/AddExpenseScreen.tsx:6-19 | there are 12 listed categories, pairwise distinct, none empty |
| AddExpense.AddExpenseScreen.constructor | projects/finance-tracker/src/AddExpenseScreen.tsx:22-24 | the form opens with empty amount, description and category, so submitting is a no-op until a category is chosen |
| AddExpense.AddExpenseScreen.SetAmount | projects/finance-tracker/src/AddExpenseScreen.tsx:48 | typing replaces the amount field with the input's text and changes nothing else |
| AddExpense.AddExpenseScreen.SetDescription | projects/finance-tracker/src/AddExpenseScreen.tsx:60 | typing replaces the description field with the input's text and changes nothing else |
| AddExpense.AddExpenseScreen.PressCategory | projects/finance-tracker/src/AddExpenseScreen.tsx:71-78 | a category button selects that listed, non-empty category |
| AddExpense.AddExpenseScreen.HandleSubmit | projects/finance-tracker/src/AddExpenseScreen.tsx:27-36 | it adds the expense (parsed amount, category, description as it is, even empty) and goes back exactly when amount and category are non-empty; otherwise nothing changes |
| CommentSheet.LeadingBlanks | projects/tiktok-clone/src/CommentSheet.tsx:61 | a helper of `trim`: the count of leading whitespace it drops, at most the length, so the slice after it exists |
| CommentSheet.TrimCorrect | projects/tiktok-clone/src/CommentSheet.tsx:61-65 | trim returns the slice between the leading and trailing whitespace, with no whitespace left at either end |
| CommentSheet.TrimEmptyIffBlank | projects/tiktok-clone/src/CommentSheet.tsx:61 | the trimmed text is empty exactly when the input is all whitespace |
| CommentSheet.Trim | projects/tiktok-clone/src/CommentSheet.tsx:61 | `String.prototype.trim`; TrimCorrect characterises it |
| CommentSheet.LikeToggleEffect | projects/tiktok-clone/src/CommentSheet.tsx:46-58 | the list keeps its length and order; the comment with that id flips its flag (a missing flag reads as false) and its count goes +1 if it was not liked and −1 if it was; every other comment is unchanged |
| CommentSheet.LikeTwiceRestores | projects/tiktok-clone/src/CommentSheet.tsx:52-53 | liking twice restores every count and liked state; only an absent flag becomes an explicit false |
| CommentSheet.WithLikeToggled | projects/tiktok-clone/src/CommentSheet.tsx:46-58 | the map of `handleLikeComment`; LikeToggleEffect states its effect field by field |
| CommentSheet.CommentSheetState.constructor | projects/tiktok-clone/src/CommentSheet.tsx:24-44 | the sheet opens with the three sample comments and an empty input |
| CommentSheet.CommentSheetState.SetNewComment | projects/tiktok-clone/src/CommentSheet.tsx:128-131 | the input holds what was typed, never more than 200 characters |
| CommentSheet.CommentSheetState.SendDisabled | projects/tiktok-clone/src/CommentSheet.tsx:135 | the send button is disabled exactly when the input is empty or all whitespace |
| CommentSheet.CommentSheetState.HandleLikeComment | projects/tiktok-clone/src/CommentSheet.tsx:46-58 | the comments become the like-toggled list |
| CommentSheet.CommentSheetState.HandlePostComment | projects/tiktok-clone/src/CommentSheet.tsx:60-72 | a comment is posted exactly when the send button is enabled (trimmed input non-empty); a post prepends one comment (trimmed text, likes 0, not liked, user "user123") to the unchanged list and clears the input; otherwise nothing changes |
| WishlistHome.ToggleEffect | projects/zara-fashion-store-clone/src/HomeScreen.tsx:23-29 | length and order are kept; products with that id only flip their heart; all others are unchanged |
| WishlistHome.ToggleTwiceRestores | projects/zara-fashion-store-clone/src/HomeScreen.tsx:26 | toggling the same id twice restores the list |
| WishlistHome.ToggleUnknownIdentity | projects/zara-fashion-store-clone/src/HomeScreen.tsx:24-28 | toggling an id no product has leaves the list unchanged |
| WishlistHome.WithWishlistToggled | projects/zara-fashion-store-clone/src/HomeScreen.tsx:23-29 | the map of `toggleWishlist`; ToggleEffect states its effect |
| WishlistHome.HomeScreen.constructor | projects/zara-fashion-store-clone/src/HomeScreen.tsx:13-21 | the screen opens on "All" with the three mock products, of which only id "2" is wishlisted |
| WishlistHome.HomeScreen.ToggleWishlist | projects/zara-fashion-store-clone/src/HomeScreen.tsx:23-29 | the products become the toggled list |
| WishlistHome.HomeScreen.SelectCategory | projects/zara-fashion-store-clone/src/HomeScreen.tsx:56-59 | a category button replaces the selection |
| VideoFeed.LikeStep | projects/tiktok-clone/src/VideoFeed.tsx:35-38 | a press flips the flag, keeps the count equal to likes plus one while liked, and two presses restore the state |
| VideoFeed.PressesFrom | projects/tiktok-clone/src/VideoFeed.tsx:35-38 | from a consistent state, any number of presses keeps the count consistent, with the flag following the press parity |
| VideoFeed.PressesConsistent | projects/tiktok-clone/src/VideoFeed.tsx:21-38 | from the initial state, after n presses the count is likes plus one exactly when n is odd |
| VideoFeed.AfterLike | projects/tiktok-clone/src/VideoFeed.tsx:35-38 | one like press on the (flag, count) pair; LikeStep states what it keeps |
| VideoFeed.VideoItem.constructor | projects/tiktok-clone/src/VideoFeed.tsx:21-22 | a video opens not liked, showing the given count |
| VideoFeed.VideoItem.HandleLike | projects/tiktok-clone/src/VideoFeed.tsx:35-38 | the flag flips and the count moves +1 or −1 according to the flag before the press; the count invariant is kept |
| VideoPlayer.SkipBackBounds | projects/netflix-clone/src/VideoPlayerScreen.tsx:96 | the skip-back target lies between 0 and the position: ten seconds back when there is room, else 0 |
| VideoPlayer.SkipForwardBounds | projects/netflix-clone/src/VideoPlayerScreen.tsx:104 | the skip-forward target never exceeds the duration, never goes back from inside the video, and is ten seconds on when there is room |
| VideoPlayer.SkipBackTarget | projects/netflix-clone/src/VideoPlayerScreen.tsx:96 | the skip-back seek target; SkipBackBounds bounds it |
| VideoPlayer.SkipForwardTarget | projects/netflix-clone/src/VideoPlayerScreen.tsx:104 | the skip-forward seek target; SkipForwardBounds bounds it |
| VideoPlayer.VideoPlayerScreen.constructor | projects/netflix-clone/src/VideoPlayerScreen.tsx:22-25 | no player yet, not full screen, controls shown, empty status |
| VideoPlayer.VideoPlayerScreen.SetPlayerRef | projects/netflix-clone/src/VideoPlayerScreen.tsx:117 | attaching or detaching the player sets whether there is one and changes nothing else |
| VideoPlayer.VideoPlayerScreen.UpdateStatus | projects/netflix-clone/src/VideoPlayerScreen.tsx:123 | a status report replaces the whole status and changes nothing else |
| VideoPlayer.VideoPlayerScreen.ToggleControls | projects/netflix-clone/src/VideoPlayerScreen.tsx:47-53 | hides the controls when shown and shows them when hidden |
| VideoPlayer.VideoPlayerScreen.ToggleFullscreen | projects/netflix-clone/src/VideoPlayerScreen.tsx:72-81 | with a player it asks to leave or enter full screen and flips the flag; without one, nothing happens |
| VideoPlayer.VideoPlayerScreen.TogglePlayPause | projects/netflix-clone/src/VideoPlayerScreen.tsx:83-91 | with a player it pauses when the status says playing and plays otherwise; without one, no command |
| VideoPlayer.VideoPlayerScreen.SkipBackward | projects/netflix-clone/src/VideoPlayerScreen.tsx:93-99 | it seeks exactly when there is a player and a non-zero position, to max(0, position − 10000), which lies in [0, position] |
| VideoPlayer.VideoPlayerScreen.SkipForward | projects/netflix-clone/src/VideoPlayerScreen.tsx:101-107 | it seeks exactly when there is a player and non-zero position and duration, to min(duration, position + 10000), never past the duration |
| VideoCarousel.NextIndexInRange | projects/netflix-clone/src/VideoCarousel.tsx:35-45 | from a slide in range the next slide is in range, and is the next one modulo the slide count |
| VideoCarousel.NextIndex | projects/netflix-clone/src/VideoCarousel.tsx:35-45 | the timer's next slide; NextIndexInRange and the Advance* lemmas state its properties |
| VideoCarousel.AdvanceWithinRange | projects/netflix-clone/src/VideoCarousel.tsx:35-39 | before the last slide each auto-advance moves one slide on |
| VideoCarousel.AdvanceCompose | projects/netflix-clone/src/VideoCarousel.tsx:33-49 | a + b auto-advances are a advances followed by b advances |
| VideoCarousel.AdvanceFullCycle | projects/netflix-clone/src/VideoCarousel.tsx:35-45 | after as many auto-advances as there are slides, the index is back where it started |
| VideoCarousel.ActiveDotExact | projects/netflix-clone/src/VideoCarousel.tsx:107-113 | one dot per slide, and exactly the current slide's dot is active (none when the index is out of range) |
| VideoCarousel.PaginationDots | projects/netflix-clone/src/VideoCarousel.tsx:107-113 | which pagination dot is active; ActiveDotExact states it |
| VideoCarousel.Carousel.constructor | projects/netflix-clone/src/VideoCarousel.tsx:30 | the current index starts at 0 |
| VideoCarousel.Carousel.AutoScrollTarget | projects/netflix-clone/src/VideoCarousel.tsx:35-45 | the timer scrolls to current + 1 before the last slide and to 0 otherwise, always in range from an in-range index |
| VideoCarousel.Carousel.OnMomentumScrollEnd | projects/netflix-clone/src/VideoCarousel.tsx:97-100 | the index becomes the slide the list came to rest on |
| VideoCarousel.Carousel.HandlePlay | projects/netflix-clone/src/VideoCarousel.tsx:51-59 | play navigates exactly when a slide exists at the current index, with that slide's id, title and video |
| VideoCarousel.Carousel.HandleMoreInfo | projects/netflix-clone/src/VideoCarousel.tsx:61-68 | more info navigates with the slide's details when the index is in range; it has no guard, so an out-of-range index is a run-time error |
| Summation.SumByPermutation | projects/finance-tracker/src/FinanceContext.tsx:90-92 | the amount fold does not depend on the order of the elements |
| Summation.SumByConcat | projects/finance-tracker/src/TransactionList.tsx:73 | folding a concatenation is adding the two folds |

## Left out

- Storage: the AsyncStorage read and write and the JSON encode/decode (projects/finance-tracker/src/FinanceContext.tsx:24-45) are asynchronous calls into a foreign library. Persistence is modelled only as the last snapshot handed to `saveData`. Loading from storage and a save/load round trip are not modelled. A failed save is not modelled either; it does not touch the in-memory ledger.
- Ids and timestamps: they come from `Date.now()` and `new Date().toISOString()`, so they are parameters here. Uniqueness is not claimed, because the source does not guarantee it.
- Date parsing and the local-timezone start of month (projects/finance-tracker/src/TransactionList.tsx:79-80, 82) are outside the model. Dates are integer instants and the month start is a parameter.
- `parseFloat` is a function parameter. The model treats its result as an exact real and does not model NaN for input that does not parse.
- Floating point: JavaScript numbers are doubles, while the model sums exact reals. Rounding in the sums is not modelled, and neither is `Math.round` paging in the carousel. The progress-bar percentage is not modelled.
- Display formatting (`Intl.NumberFormat`, `toLocaleDateString`), styling, icons other than the transaction icon map, animations and navigation are not modelled. A navigation is represented only by the returned route parameters or a "went back" flag.
- TransactionList.SortNewestFirst: the model's sort is an insertion sort that keeps ties in input order, like the stable JavaScript sort. No lemma states the tie order.
- FinanceHome.AssetsByType: the source parameter is a string. Its only callers pass the three type literals, so the model takes the enumeration.
- VideoPlayer.VideoPlayerScreen.ToggleControls: hiding waits for a 200 ms fade before clearing the flag. The model clears it at once. The 3-second auto-hide timer is not modelled.
- VideoPlayer.VideoPlayerScreen.ToggleFullscreen: the flag flips only after the awaited player call. The model does not model a failing player call.
- Playback: the player's own behaviour (seeking, playing, status reports) is represented by returned commands and a status input.
- The carousel's 10-second interval timer is not modelled. An auto-advance is modelled as the scroll target it computes, followed by the paging scroll ending on that slide.
- CommentSheet.CommentSheetState.SetNewComment: the input field's 200-character limit counts UTF-16 code units, so an emoji counts twice. The model counts Unicode scalar values, so its bound of 200 is implied by the field's and can be looser than it.
- React runtime semantics are not modelled: re-render scheduling, batching and stale closures. Every handler runs to completion on the current state.
- Screens with nothing but presentation, navigation or static data are not modelled: the details, product-detail, size-guide, header, card and button components, the streaming home screen and the app shells.
