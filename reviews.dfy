/**
 * The rules of the review service: cursor pagination of a book's reviews and of a member's own
 * reviews, and creating, updating and deleting a review. The repository is a map from review
 * id to review; its custom cursor queries are taken as given functions.
 */
module Reviews {
  import opened Wrappers

  /** A `LocalDateTime`, as an instant on a line. */
  type Timestamp = int

  /** A stored review; `score` and `content` are nullable columns. */
  datatype Review = Review(reviewId: nat, memberId: nat, bookId: nat,
                           score: Option<int>, content: Option<string>, updatedAt: Timestamp)

  /** The request body of create and update; `score` and `content` may be `null`. */
  datatype ReviewRequest = ReviewRequest(bookId: nat, score: Option<int>, content: Option<string>)

  /** The exceptions the service lets escape. */
  datatype ReviewError =
    | ReviewBookDuplicated  // ReviewBookDuplicatedException
    | ReviewNotFound        // ReviewNotFoundException
    | PageSizeTooSmall      // IllegalArgumentException from PageRequest.of(0, pageSize)

  /** The pagination cursor: the last review's `(updatedAt, reviewId)`, both `null` on the first page. */
  datatype Cursor = Cursor(lastUpdatedAt: Option<Timestamp>, lastReviewId: Option<nat>)

  /** The arguments the cursor query receives. */
  datatype Query = Query(updatedAtCursor: Timestamp, lastReviewId: Option<nat>, pageSize: nat)

  /** `ReviewListResponseDto`: the member's own review (first page only), the page, the next cursor. */
  datatype BookReviewPage<D> = BookReviewPage(memberReview: Option<D>, reviewList: seq<D>, next: Cursor)

  /** `MyPageReviewListResponseDto`: the page and the next cursor. */
  datatype MyReviewPage<D> = MyReviewPage(reviewList: seq<D>, next: Cursor)

  /** A request without a cursor asks for the first page. */
  predicate IsFirstPage(c: Cursor)
  {
    c.lastUpdatedAt.None? && c.lastReviewId.None?
  }

  /** The query a request issues: a given `lastUpdatedAt` is the cursor, otherwise the clock's `now`. */
  function QueryFor(c: Cursor, pageSize: nat, now: Timestamp): Query
  {
    Query(if c.lastUpdatedAt.Some? then c.lastUpdatedAt.value else now, c.lastReviewId, pageSize)
  }

  /**
   * The next cursor: `(null, null)` after a short page, otherwise the last review's
   * `(updatedAt, reviewId)`.
   */
  function NextCursor(reviews: seq<Review>, pageSize: int): (r: Cursor)
    requires pageSize >= 1
    ensures r.lastUpdatedAt.Some? <==> |reviews| >= pageSize
    ensures r.lastReviewId.Some? <==> |reviews| >= pageSize
    ensures |reviews| >= pageSize ==>
      && r.lastUpdatedAt == Some(reviews[|reviews| - 1].updatedAt)
      && r.lastReviewId == Some(reviews[|reviews| - 1].reviewId)
  {
    if |reviews| < pageSize then Cursor(None, None)
    else
      var last := reviews[|reviews| - 1];
      Cursor(Some(last.updatedAt), Some(last.reviewId))
  }

  /** `reviews.stream().map(toDto).toList()`. */
  function MapReviews<D>(reviews: seq<Review>, toDto: Review -> D): (r: seq<D>)
    ensures |r| == |reviews|
    ensures forall i :: 0 <= i < |reviews| ==> r[i] == toDto(reviews[i])
  {
    if reviews == [] then [] else [toDto(reviews[0])] + MapReviews(reviews[1..], toDto)
  }

  /**
   * `getBookReviewsWithMemberReview`: one page of the other members' reviews of a book, with
   * the member's own review on the first page only. `ownReview` is what the own-review lookup
   * finds, `fetch` the cursor query, `now` the clock, the two mappers the DTO conversions.
   */
  function BookReviewsWithMemberReview<D>(c: Cursor, pageSize: int, now: Timestamp,
                                         ownReview: Option<Review>, fetch: Query -> seq<Review>,
                                         toListDto: Review -> D, toMemberDto: Review -> D)
    : (r: Result<BookReviewPage<D>, ReviewError>)
    ensures r.Failure? <==> pageSize < 1
    ensures r.Failure? ==> r.error == PageSizeTooSmall
    ensures r.Success? ==>
      var fetched := fetch(QueryFor(c, pageSize, now));
      && (r.value.memberReview.Some? <==> IsFirstPage(c) && ownReview.Some?)
      && (r.value.memberReview.Some? ==> r.value.memberReview.value == toMemberDto(ownReview.value))
      && |r.value.reviewList| == |fetched|
      && (forall i :: 0 <= i < |fetched| ==> r.value.reviewList[i] == toListDto(fetched[i]))
      && r.value.next == NextCursor(fetched, pageSize)
  {
    var memberReview := if IsFirstPage(c) && ownReview.Some? then Some(toMemberDto(ownReview.value)) else None;
    if pageSize < 1 then Failure(PageSizeTooSmall)
    else
      var reviews := fetch(QueryFor(c, pageSize, now));
      Success(BookReviewPage(memberReview, MapReviews(reviews, toListDto), NextCursor(reviews, pageSize)))
  }

  /** `getMyReviewsAfterCursor`: one page of the member's own reviews. */
  function MyReviewsAfterCursor<D>(c: Cursor, pageSize: int, now: Timestamp,
                                  fetch: Query -> seq<Review>, toDto: Review -> D)
    : (r: Result<MyReviewPage<D>, ReviewError>)
    ensures r.Failure? <==> pageSize < 1
    ensures r.Failure? ==> r.error == PageSizeTooSmall
    ensures r.Success? ==>
      var fetched := fetch(QueryFor(c, pageSize, now));
      && |r.value.reviewList| == |fetched|
      && (forall i :: 0 <= i < |fetched| ==> r.value.reviewList[i] == toDto(fetched[i]))
      && r.value.next == NextCursor(fetched, pageSize)
  {
    if pageSize < 1 then Failure(PageSizeTooSmall)
    else
      var reviews := fetch(QueryFor(c, pageSize, now));
      Success(MyReviewPage(MapReviews(reviews, toDto), NextCursor(reviews, pageSize)))
  }

  /** A given `lastUpdatedAt` is the query's cursor whatever the clock says. */
  lemma GivenCursorIgnoresClock(c: Cursor, pageSize: nat, now1: Timestamp, now2: Timestamp)
    requires c.lastUpdatedAt.Some?
    ensures QueryFor(c, pageSize, now1) == QueryFor(c, pageSize, now2)
    ensures QueryFor(c, pageSize, now1).updatedAtCursor == c.lastUpdatedAt.value
  {
  }

  /**
   * Following a full page's cursor asks for the reviews after that page's last review, and the
   * follow-up page no longer carries the member's own review.
   */
  lemma FollowingTheCursorContinuesAfterLastReview<D>(
    c: Cursor, pageSize: int, now: Timestamp, later: Timestamp, ownReview: Option<Review>,
    fetch: Query -> seq<Review>, toListDto: Review -> D, toMemberDto: Review -> D)
    requires pageSize >= 1
    requires |fetch(QueryFor(c, pageSize, now))| >= pageSize
    ensures
      var page := BookReviewsWithMemberReview(c, pageSize, now, ownReview, fetch, toListDto, toMemberDto);
      var last := fetch(QueryFor(c, pageSize, now))[|fetch(QueryFor(c, pageSize, now))| - 1];
      && page.Success?
      && QueryFor(page.value.next, pageSize, later) == Query(last.updatedAt, Some(last.reviewId), pageSize)
      && BookReviewsWithMemberReview(page.value.next, pageSize, later, ownReview, fetch, toListDto, toMemberDto)
           .value.memberReview == None
  {
  }

  /** A short page ends the pagination: its next cursor is the first-page cursor. */
  lemma ShortPageEndsPagination(reviews: seq<Review>, pageSize: int)
    requires 1 <= pageSize
    requires |reviews| < pageSize
    ensures IsFirstPage(NextCursor(reviews, pageSize))
  {
  }

  // ---------------------------------------------------------------------------------------
  // The repository and the changes the service makes to it

  /** `existsByMemberAndBook`: the member has a review of the book. */
  predicate HasReviewed(reviews: map<nat, Review>, memberId: nat, bookId: nat)
  {
    exists id :: id in reviews && reviews[id].memberId == memberId && reviews[id].bookId == bookId
  }

  /** The row `deleteByReviewIdAndMemberMemberId` matches: the review exists and is the member's. */
  predicate IsOwnReview(reviews: map<nat, Review>, reviewId: nat, memberId: nat)
  {
    reviewId in reviews && reviews[reviewId].memberId == memberId
  }

  /** `reviewRequestDto.toEntity(member, book)`, saved under `id` at time `now`. */
  function ToEntity(id: nat, memberId: nat, request: ReviewRequest, now: Timestamp): Review
  {
    Review(id, memberId, request.bookId, request.score, request.content, now)
  }

  /**
   * The partial update: a non-null `score` or `content` replaces the stored one; a null leaves
   * it; nothing else changes.
   */
  function Patched(review: Review, request: ReviewRequest): (r: Review)
    ensures r.reviewId == review.reviewId && r.memberId == review.memberId
    ensures r.bookId == review.bookId && r.updatedAt == review.updatedAt
    ensures request.score.Some? ==> r.score == request.score
    ensures request.score.None? ==> r.score == review.score
    ensures request.content.Some? ==> r.content == request.content
    ensures request.content.None? ==> r.content == review.content
  {
    var afterScore := if request.score != None then review.(score := request.score) else review;
    if request.content != None then afterScore.(content := request.content) else afterScore
  }

  /** Applying the same update twice is the same as applying it once. */
  lemma PatchIsIdempotent(review: Review, request: ReviewRequest)
    ensures Patched(Patched(review, request), request) == Patched(review, request)
  {
  }

  /** Once a member's review of a book is saved, the duplicate check finds it. */
  lemma SavedReviewIsFoundByDuplicateCheck(reviews: map<nat, Review>, id: nat, memberId: nat,
                                          request: ReviewRequest, now: Timestamp)
    ensures HasReviewed(reviews[id := ToEntity(id, memberId, request, now)], memberId, request.bookId)
  {
    var after := reviews[id := ToEntity(id, memberId, request, now)];
    assert id in after && after[id].memberId == memberId && after[id].bookId == request.bookId;
  }

  /** The review repository behind the service, with the id the next saved review receives. */
  class ReviewService {
    var reviews: map<nat, Review>
    var nextId: nat

    /** Every stored review sits under its own id, and every id is below `nextId`. */
    ghost predicate Valid()
      reads this
    {
      forall id :: id in reviews ==> id < nextId && reviews[id].reviewId == id
    }

    constructor ()
      ensures Valid() && reviews == map[]
    {
      reviews := map[];
      nextId := 0;
    }

    /** `createReview`: refuses a second review of the same book, otherwise saves one review. */
    method CreateReview(memberId: nat, request: ReviewRequest, now: Timestamp)
      returns (result: Outcome<ReviewError>)
      requires Valid()
      modifies this
      ensures Valid()
      ensures result.Fail? <==> HasReviewed(old(reviews), memberId, request.bookId)
      ensures result.Fail? ==> result.error == ReviewBookDuplicated && reviews == old(reviews)
      ensures result.Pass? ==>
        && old(nextId) !in old(reviews)
        && reviews == old(reviews)[old(nextId) := ToEntity(old(nextId), memberId, request, now)]
        && |reviews| == |old(reviews)| + 1
    {
      if HasReviewed(reviews, memberId, request.bookId) {
        return Fail(ReviewBookDuplicated);
      }
      var review := ToEntity(nextId, memberId, request, now);
      reviews := reviews[nextId := review];
      nextId := nextId + 1;
      result := Pass;
    }

    /**
     * `updateReview`: not-found for an unknown id, otherwise the partial update. The member id
     * is only validated: the update does not check that the review is the member's.
     */
    method UpdateReview(memberId: nat, reviewId: nat, request: ReviewRequest)
      returns (result: Outcome<ReviewError>)
      requires Valid()
      modifies this
      ensures Valid() && nextId == old(nextId)
      ensures result.Fail? <==> reviewId !in old(reviews)
      ensures result.Fail? ==> result.error == ReviewNotFound && reviews == old(reviews)
      ensures result.Pass? ==> reviews == old(reviews)[reviewId := Patched(old(reviews)[reviewId], request)]
    {
      if reviewId !in reviews {
        return Fail(ReviewNotFound);
      }
      var review := reviews[reviewId];
      if request.score != None {
        review := review.(score := request.score);
      }
      if request.content != None {
        review := review.(content := request.content);
      }
      reviews := reviews[reviewId := review];
      result := Pass;
    }

    /** `deleteByReviewIdAndMemberMemberId`: removes the member's review with that id; the rows removed. */
    method DeleteByReviewIdAndMemberMemberId(reviewId: nat, memberId: nat) returns (deletedCount: nat)
      requires Valid()
      modifies this
      ensures Valid() && nextId == old(nextId)
      ensures deletedCount == if IsOwnReview(old(reviews), reviewId, memberId) then 1 else 0
      ensures reviews == if deletedCount == 1 then old(reviews) - {reviewId} else old(reviews)
    {
      if IsOwnReview(reviews, reviewId, memberId) {
        reviews := reviews - {reviewId};
        deletedCount := 1;
      } else {
        deletedCount := 0;
      }
    }

    /** `deleteReview`: not-found exactly when no row was deleted. */
    method DeleteReview(memberId: nat, reviewId: nat) returns (result: Outcome<ReviewError>)
      requires Valid()
      modifies this
      ensures Valid() && nextId == old(nextId)
      ensures result.Fail? <==> !IsOwnReview(old(reviews), reviewId, memberId)
      ensures result.Fail? ==> result.error == ReviewNotFound && reviews == old(reviews)
      ensures result.Pass? ==> reviews == old(reviews) - {reviewId} && reviewId !in reviews
    {
      var deletedCount := DeleteByReviewIdAndMemberMemberId(reviewId, memberId);
      if deletedCount == 0 {
        return Fail(ReviewNotFound);
      }
      result := Pass;
    }
  }
}
