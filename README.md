# Audisay reading and library core, modelled in Dafny

Audisay is a mobile book-reading app for blind and low-vision readers. This project models four
pieces of its sequential logic and proves what each promises:

- **The injected reader script** (`reading_tracker.dfy`, module `ReadingTracker`). The EPUB web
  view runs a small script. It remembers the last section index it saw (`nowIndex`). On every
  `relocated` event it reports the reader's location to the host. When the section changes, it
  rebuilds the section's narration index (`formArr`): one `{ sentence, cfisRange }` entry per
  image, link, `h1`–`h3` heading and `span`, in document order. It also decides whether the host
  should turn to the next page (`handlePageMove`). Positions are EPUB CFIs. The script never
  looks inside a CFI, so the model treats them as opaque values with an engine-supplied
  comparison. Building a DOM range and anchoring it (`cfiFromRange`) is a given function that may
  fail. Messages to the host are appended to a log.
- **The sort buttons of the accessible search list** (`sort_buttons.dfy`, module `SortButtons`).
  This is a state machine over `sortOrder`, `isLastest` and `isAlpabetAsc`. Each press sends one
  `(sortBy, sortOrder)` request. The model also covers the direction each button's accessibility
  hint announces.
- **The liked-books list** (`liked_books.dfy`, module `LikedBooks`). It has a case-insensitive
  search filter and removal by book id. `toLowerCase` is a given function.
- **The review service** (`reviews.dfy`, module `Reviews`). It covers cursor pagination, the
  first-page-only lookup of the member's own review, the duplicate check on create, the partial
  update, and not-found on a delete that removes nothing. The repository is a map from review id
  to review.

`text.dfy` (module `Text`) models JavaScript's `indexOf` and `includes`. `wrappers.dfy` holds
`Option`, `Outcome` and `Result`.

Some behaviour of the script as written:

- `nowIndex` starts at 0, so a first relocation into section 0 builds no index
  (`FirstRelocationIntoSectionZeroBuildsNoIndex`).
- An image is anchored as a whole node whatever its `alt` text, an empty one included; only a
  failing anchoring call drops an element.
- The error message is the bare notice `{ msgg: "에러남" }`.
- A relocation handler that is still indexing is not guarded against being entered again.
- Elements with a tag the loop does not handle are skipped silently (`Tag.Other`).

`updateReview` looks up a review by id only. It never checks that the review belongs to the
calling member, while `deleteReview` only deletes the member's own review. The model keeps both
behaviours as written (`ReviewService.UpdateReview`, `ReviewService.DeleteReview`).

Paging with `pageSize < 1` fails: `PageRequest.of(0, pageSize)` throws
`IllegalArgumentException`. The model returns `PageSizeTooSmall` on that path. Because of that,
`reviews.getLast()` is only reached on a non-empty list.

## Model

| member | source | states |
|---|---|---|
| `Text.IndexOfFrom` | FE/src/utils/injectedScript.js:42 | the result is -1 or an offset at or after `from` where the needle occurs, and no earlier offset from `from` on holds an occurrence |
| `Text.IndexOf` | FE/src/utils/injectedScript.js:42 | -1 exactly when the needle occurs nowhere; otherwise the first occurrence |
| `Text.IndexOfSelf` | FE/src/utils/injectedScript.js:42-43 | a string's text is found in itself at offset 0, the empty string included |
| `Text.IncludesIffOccurs` | FE/src/components/MyPage/AccessibilityMyLikedBooksList.tsx:26-27 | `includes` holds iff the needle occurs somewhere; an empty needle is always included |
| `ReadingTracker.Tracker.constructor` | FE/src/utils/injectedScript.js:2-3 | `nowIndex` starts at 0 and the start-up notice is the first message posted |
| `ReadingTracker.Tracker.HandlePageMove` | FE/src/utils/injectedScript.js:6-13 | posts `gonextpage` exactly when `compare(target, currentEnd) > 0`, posts nothing otherwise, and never changes `nowIndex` |
| `ReadingTracker.TargetAtEndDoesNotAdvance` | FE/src/utils/injectedScript.js:9-12 | under a reading-order comparator, a target equal to the page end does not turn the page |
| `ReadingTracker.LaterTargetAlsoAdvances` | FE/src/utils/injectedScript.js:9-12 | under a reading-order comparator, any target at or after a page-turning target turns the page too |
| `ReadingTracker.Tracker.OnRelocated` | FE/src/utils/injectedScript.js:15-33 | sets `nowIndex` to the event's index; posts `bookEnd`, then the location report with the old `nowIndex`, then one indexing pass only if the index changed |
| `ReadingTracker.RelocationReindexesOnlyOnSectionChange` | FE/src/utils/injectedScript.js:17-32 | a relocation posts `bookEnd` first, then the report with `prevIndex` = old `nowIndex` and the event's start and end CFIs, and exactly one `formArr` iff the index differs, else none |
| `ReadingTracker.FirstRelocationIntoSectionZeroBuildsNoIndex` | FE/src/utils/injectedScript.js:29-30 | from the declared `nowIndex` 0, a relocation into section 0 posts no `formArr` |
| `ReadingTracker.Tracker.CreateCfiObject` | FE/src/utils/injectedScript.js:36-53 | returns an entry carrying the input sentence unchanged when anchoring succeeds; otherwise posts the error notice and returns null |
| `ReadingTracker.TextAnchorCoversWholeText` | FE/src/utils/injectedScript.js:76-79 | a link, heading or span is anchored with its own text, over `[0, length of its text)` of its first child |
| `ReadingTracker.ImageAnchorsWholeNode` | FE/src/utils/injectedScript.js:72-75 | an image is anchored as a whole node, with its `alt` text as the sentence |
| `ReadingTracker.Errors` | FE/src/utils/injectedScript.js:49-51 | the messages posted during a pass are all the anchoring-error notice |
| `ReadingTracker.Tracker.GetFormArrForCustomBook` | FE/src/utils/injectedScript.js:56-83 | posts the parse-start notice, one error notice per failed element in order, then `{ formArr }` with the index of the elements |
| `ReadingTracker.IndexKeepsDocumentOrder` | FE/src/utils/injectedScript.js:66-81 | the index lists, in increasing document position, exactly the elements whose anchoring succeeded, each with its own entry |
| `ReadingTracker.IndexAccountsForEveryElement` | FE/src/utils/injectedScript.js:70-81 | entries plus error notices equal the number of handled elements, so the index is no longer than the selection |
| `ReadingTracker.IndexingPostsOneFormArr` | FE/src/utils/injectedScript.js:57-82 | an indexing pass starts with the parse-start notice and posts exactly one `{ formArr }` |
| `SortButtons.Press` | FE/src/components/Search/AccessibilityBookList.tsx:44-69 | the chosen key becomes `sortOrder`; relevance requests `(null, desc)` and keeps both flags; re-pressing date or title flips its flag and pressing another key keeps it; date requests `desc` iff the new `isLastest`, title requests `asc` iff the new `isAlpabetAsc` |
| `SortButtons.HintAnnouncesNextRequest` | FE/src/components/Search/AccessibilityBookList.tsx:107-119 | the date and title hints name exactly the direction the next press of that button requests; the relevance hint names none |
| `SortButtons.LabelShowsLastRequest` | FE/src/components/Search/AccessibilityBookList.tsx:106-116 | after a press of the date or title button, its label names the direction just requested |
| `SortButtons.DoublePressRestoresState` | FE/src/components/Search/AccessibilityBookList.tsx:46-61 | pressing the selected direction button twice restores the state |
| `SortButtons.SortControls.constructor` | FE/src/components/Search/AccessibilityBookList.tsx:26-28 | the state starts as `('correct', true, true)` and no request has been sent |
| `SortButtons.SortControls.ResetStates` | FE/src/components/Search/AccessibilityBookList.tsx:32-36 | restores `('correct', true, true)` and sends no request |
| `SortButtons.SortControls.HandleSortChange` | FE/src/components/Search/AccessibilityBookList.tsx:44-69 | the new state and the one request appended are those `Press` gives |
| `LikedBooks.Filter` | FE/src/components/MyPage/AccessibilityMyLikedBooksList.tsx:23 | `filter` returns an order-preserving subsequence holding each accepted element as often as the input does and no rejected one; accepting all returns the input |
| `LikedBooks.FilteredBooks` | FE/src/components/MyPage/AccessibilityMyLikedBooksList.tsx:23-28 | a book is shown iff the query is empty or its lower-cased title or author contains the lower-cased query; the shown list is an order-preserving subsequence; an empty query shows every book in order |
| `LikedBooks.WithoutBook` | FE/src/components/MyPage/AccessibilityMyLikedBooksList.tsx:31 | every book with the id is removed, all others are kept in order with their multiplicity, and an absent id leaves the list unchanged |
| `LikedBooks.UnlikeIsIdempotent` | FE/src/components/MyPage/AccessibilityMyLikedBooksList.tsx:31 | removing the same id a second time changes nothing |
| `LikedBooks.LikedBooksList.constructor` | FE/src/components/MyPage/AccessibilityMyLikedBooksList.tsx:20 | `likedBooks` starts as the `books` input |
| `LikedBooks.LikedBooksList.HandleUnlike` | FE/src/components/MyPage/AccessibilityMyLikedBooksList.tsx:30-33 | `likedBooks` becomes the previous list without the unliked id |
| `Reviews.NextCursor` | BE/Spring/audisay/src/main/java/com/palja/audisay/domain/review/service/ReviewService.java:51-52 | both cursor parts are null iff fewer than `pageSize` reviews came back; otherwise they are the last review's `updatedAt` and id |
| `Reviews.MapReviews` | BE/Spring/audisay/src/main/java/com/palja/audisay/domain/review/service/ReviewService.java:48 | the mapped list has the fetched list's length and order, element by element |
| `Reviews.BookReviewsWithMemberReview` | BE/Spring/audisay/src/main/java/com/palja/audisay/domain/review/service/ReviewService.java:31-60 | fails iff `pageSize < 1`; the member's review is present iff both cursors are null and the lookup found one; the list maps the fetched page in order; the next cursor follows `NextCursor` |
| `Reviews.MyReviewsAfterCursor` | BE/Spring/audisay/src/main/java/com/palja/audisay/domain/review/service/ReviewService.java:62-79 | fails iff `pageSize < 1`; the list maps the fetched page in order; the next cursor follows `NextCursor` |
| `Reviews.GivenCursorIgnoresClock` | BE/Spring/audisay/src/main/java/com/palja/audisay/domain/review/service/ReviewService.java:45 | a non-null `lastUpdatedAt` is the query cursor unchanged, whatever the clock reads |
| `Reviews.FollowingTheCursorContinuesAfterLastReview` | BE/Spring/audisay/src/main/java/com/palja/audisay/domain/review/service/ReviewService.java:36-52 | following a full page's cursor queries from that page's last review, and that next page carries no member review |
| `Reviews.ShortPageEndsPagination` | BE/Spring/audisay/src/main/java/com/palja/audisay/domain/review/service/ReviewService.java:71-72 | a short page's next cursor is the null cursor |
| `Reviews.Patched` | BE/Spring/audisay/src/main/java/com/palja/audisay/domain/review/service/ReviewService.java:98-103 | a non-null request score or content replaces the stored one, a null one keeps it, and id, member, book and time are unchanged |
| `Reviews.PatchIsIdempotent` | BE/Spring/audisay/src/main/java/com/palja/audisay/domain/review/service/ReviewService.java:98-103 | applying the same update twice equals applying it once |
| `Reviews.SavedReviewIsFoundByDuplicateCheck` | BE/Spring/audisay/src/main/java/com/palja/audisay/domain/review/service/ReviewService.java:86-90 | after a review is saved, the duplicate check for that member and book succeeds, so a second create is refused |
| `Reviews.ReviewService.CreateReview` | BE/Spring/audisay/src/main/java/com/palja/audisay/domain/review/service/ReviewService.java:82-91 | throws the duplicated error and saves nothing iff the member already reviewed the book; otherwise saves exactly one new review under a fresh id |
| `Reviews.ReviewService.UpdateReview` | BE/Spring/audisay/src/main/java/com/palja/audisay/domain/review/service/ReviewService.java:94-105 | throws not-found iff the id is unknown and then changes nothing; otherwise replaces only that review, by its partial update |
| `Reviews.ReviewService.DeleteByReviewIdAndMemberMemberId` | BE/Spring/audisay/src/main/java/com/palja/audisay/domain/review/service/ReviewService.java:110 | deletes the review iff it exists and is the member's, and returns the number of rows removed (1 or 0) |
| `Reviews.ReviewService.DeleteReview` | BE/Spring/audisay/src/main/java/com/palja/audisay/domain/review/service/ReviewService.java:108-114 | throws not-found exactly when no row was deleted; otherwise the review is gone |

## Left out

- The rendering engine and the DOM are left out: `rendition`, `book.locations`, `querySelectorAll`, the Range API and `cfiFromRange`. The selected elements, the CFI comparison, `percentageFromCfi` and the anchoring call are inputs. CFIs are never parsed or built.
- The progress value from `percentageFromCfi` is a floating-point number. It is passed through as a `real` and nothing is proved about it.
- String offsets and lengths count characters (Unicode scalar values), while JavaScript's `indexOf` and `length` count UTF-16 code units. For text with characters outside the Basic Multilingual Plane, such as "📖 Intro", the model's end offset (7) is smaller than the one the script passes to `setEnd` (8). No proved property depends on the offsets' unit, because anchoring is a given function of the range.
- `async`/`await` and `postMessage` are left out. Handlers run synchronously, and posting a message appends to the tracker's log.
- `getFormArrForCustomBook` reads the section from `rendition.manager.current()` and `rendition.getContents()`. The model receives that section's elements as a parameter. If either engine call throws, the exception leaves the handler after `nowIndex` was updated. That path is not modelled.
- React rendering, styles, navigation and `AccessibilityInfo.announceForAccessibility` are not modelled. `HandleUnlike` takes the title argument only to announce it.
- React may run the state-updater function of `setIsLastest` or `setIsAlpabetAsc` more than once in development mode, which would call `updateSortAndFetch` again. The model runs it once.
- `validateMember` and `validatePublishedBook` can throw. They are assumed to pass, and member and book are plain ids.
- The custom cursor queries `findOtherReviewsWithCursor` and `findReviewsWithCursor` have no visible predicates. They are a given function from the query arguments to a list. `findMemberReviewForBook` is a given result.
- The derived repository methods `existsByMemberAndBook`, `findById` and `deleteByReviewIdAndMemberMemberId` are modelled on the map, from their names.
- Transactions are left out. `LocalDateTime.now()` is the `now` parameter.
- Reviews.ReviewService.UpdateReview: stores the request score as given. The `byteValue` narrowing at ReviewService.java:99 is not modelled.
- Reviews.ToEntity: the request-to-entity conversion is not shown in the source. It is assumed to copy book, score and content, and to stamp the clock's time.
- Reviews.ReviewService.CreateReview: the database assigns the new review's id. The model draws it from a counter of ids not yet used.
- Reviews.Patched: entity auditing that might refresh `updatedAt` on save is not shown in the source and is not modelled.
