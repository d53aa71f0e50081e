/** BookService.java: the book repository as a map from id to book, and the
    review operations, which change a book's review list and recompute its
    mean rating before saving it. */
module Books {
  import opened Wrappers
  import opened Text
  import opened Seqs
  import opened Store

  function RatingSum(rs: seq<Review>): real {
    if rs == [] then 0.0 else RatingSum(rs[..|rs| - 1]) + rs[|rs| - 1].rating
  }

  /** `updateAverageRating`: the mean of the ratings, 0 for no reviews. */
  function MeanRating(rs: seq<Review>): real {
    if |rs| == 0 then 0.0 else RatingSum(rs) / (|rs| as real)
  }

  lemma {:induction false} RatingSumBounds(rs: seq<Review>, lo: real, hi: real)
    requires forall i :: 0 <= i < |rs| ==> lo <= rs[i].rating <= hi
    ensures (|rs| as real) * lo <= RatingSum(rs) <= (|rs| as real) * hi
  {
    if rs != [] {
      RatingSumBounds(rs[..|rs| - 1], lo, hi);
    }
  }

  /** The mean lies between the lowest and the highest rating. */
  lemma MeanRatingBounds(rs: seq<Review>, lo: real, hi: real)
    requires rs != []
    requires forall i :: 0 <= i < |rs| ==> lo <= rs[i].rating <= hi
    ensures lo <= MeanRating(rs) <= hi
  {
    RatingSumBounds(rs, lo, hi);
    var n := |rs| as real;
    assert RatingSum(rs) / n >= lo by {
      assert RatingSum(rs) >= n * lo;
    }
    assert RatingSum(rs) / n <= hi by {
      assert RatingSum(rs) <= n * hi;
    }
  }

  /** Equal ratings have that rating as their mean. */
  lemma MeanOfEqualRatings(rs: seq<Review>, v: real)
    requires rs != []
    requires forall i :: 0 <= i < |rs| ==> rs[i].rating == v
    ensures MeanRating(rs) == v
  {
    MeanRatingBounds(rs, v, v);
  }

  /** The review's reviewer equals `reviewer`, ignoring case. */
  predicate ByReviewer(r: Review, reviewer: string) {
    EqualsIgnoreCase(r.reviewer, reviewer)
  }

  /** The review after `updateReview` overwrote it: comment, rating and
      userId replaced, the reviewer name kept. */
  function Overwritten(r: Review, updated: Review): (o: Review)
    ensures o.reviewer == r.reviewer
    ensures o.comment == updated.comment && o.rating == updated.rating && o.userId == updated.userId
  {
    r.(comment := updated.comment, rating := updated.rating, userId := updated.userId)
  }

  /** The review list after overwriting the first review by `reviewer`. */
  function UpdateFirst(rs: seq<Review>, reviewer: string, updated: Review): seq<Review> {
    if rs == [] then []
    else if ByReviewer(rs[0], reviewer) then [Overwritten(rs[0], updated)] + rs[1..]
    else [rs[0]] + UpdateFirst(rs[1..], reviewer, updated)
  }

  /** Only the first matching review changes; with no match nothing does. */
  lemma {:induction false} UpdateFirstAt(rs: seq<Review>, reviewer: string, updated: Review, i: nat)
    requires i <= |rs|
    requires forall j :: 0 <= j < i ==> !ByReviewer(rs[j], reviewer)
    requires i < |rs| ==> ByReviewer(rs[i], reviewer)
    ensures UpdateFirst(rs, reviewer, updated) == if i < |rs| then rs[i := Overwritten(rs[i], updated)] else rs
  {
    if rs != [] && i > 0 {
      UpdateFirstAt(rs[1..], reviewer, updated, i - 1);
    }
  }

  /** `updateReview` keeps the length and every reviewer name, changes at
      most one review, and that one is the first by `reviewer`. */
  lemma UpdateFirstProperties(rs: seq<Review>, reviewer: string, updated: Review)
    ensures |UpdateFirst(rs, reviewer, updated)| == |rs|
    ensures forall j :: 0 <= j < |rs| ==> UpdateFirst(rs, reviewer, updated)[j].reviewer == rs[j].reviewer
    ensures forall j :: 0 <= j < |rs| && UpdateFirst(rs, reviewer, updated)[j] != rs[j] ==>
              ByReviewer(rs[j], reviewer) && (forall k :: 0 <= k < j ==> !ByReviewer(rs[k], reviewer))
    ensures (forall j :: 0 <= j < |rs| ==> !ByReviewer(rs[j], reviewer)) ==> UpdateFirst(rs, reviewer, updated) == rs
  {
    var i := FirstBy(rs, reviewer);
    UpdateFirstAt(rs, reviewer, updated, i);
  }

  /** The index of the first review by `reviewer`, or the length. */
  function FirstBy(rs: seq<Review>, reviewer: string): (i: nat)
    ensures i <= |rs|
    ensures forall j :: 0 <= j < i ==> !ByReviewer(rs[j], reviewer)
    ensures i < |rs| ==> ByReviewer(rs[i], reviewer)
  {
    if rs == [] || ByReviewer(rs[0], reviewer) then 0 else 1 + FirstBy(rs[1..], reviewer)
  }

  /** `removeIf(review -> reviewer matches)`. */
  function WithoutReviewer(rs: seq<Review>, reviewer: string): seq<Review> {
    Filter(rs, (r: Review) => !ByReviewer(r, reviewer))
  }

  /** Deleting keeps the other reviews in order, none by `reviewer`
      remains, and deleting again removes nothing. */
  lemma WithoutReviewerProperties(rs: seq<Review>, reviewer: string)
    ensures forall j :: 0 <= j < |WithoutReviewer(rs, reviewer)| ==> !ByReviewer(WithoutReviewer(rs, reviewer)[j], reviewer)
    ensures forall j :: 0 <= j < |rs| && !ByReviewer(rs[j], reviewer) ==> rs[j] in WithoutReviewer(rs, reviewer)
    ensures IsSubsequence(WithoutReviewer(rs, reviewer), rs)
    ensures WithoutReviewer(WithoutReviewer(rs, reviewer), reviewer) == WithoutReviewer(rs, reviewer)
  {
    FilterIsSubsequence(rs, (r: Review) => !ByReviewer(r, reviewer));
    FilterIdempotent(rs, (r: Review) => !ByReviewer(r, reviewer));
  }

  /** The book with a new review list and the mean rating recomputed. */
  function WithReviews(b: Book, rs: seq<Review>): (r: Book)
    ensures r.reviews == Some(rs) && r.ratings == MeanRating(rs)
    ensures r.(reviews := b.reviews, ratings := b.ratings) == b
  {
    b.(reviews := Some(rs), ratings := MeanRating(rs))
  }

  class BookService {
    /** The book repository: id to book. */
    var books: map<string, Book>
    /** Every book saved, in order. */
    var saved: seq<Book>

    ghost predicate Valid()
      reads this
    {
      IdsMatch(books, BookId)
    }

    constructor (initial: map<string, Book>)
      requires IdsMatch(initial, BookId)
      ensures Valid() && books == initial && saved == []
    {
      books := initial;
      saved := [];
    }

    /** `findByTitleAndSellerId`: the one book with exactly that title and
        seller, none, or the repository's error when several match. */
    method FindByTitleAndSellerId(title: string, sellerId: string) returns (found: Lookup<Book>)
      requires Valid()
      ensures found == NoMatch <==> TitleMatches(books, BookTitle, BookSeller, title, sellerId) == {}
      ensures found == SeveralMatches <==> |TitleMatches(books, BookTitle, BookSeller, title, sellerId)| >= 2
      ensures found.OneMatch? ==> TitleMatches(books, BookTitle, BookSeller, title, sellerId) == {found.item.id}
                                  && books[found.item.id] == found.item
    {
      found := FindOne(books, TitleMatches(books, BookTitle, BookSeller, title, sellerId));
    }

    /** `bookRepository.save`: stores the book under its id. */
    method Save(b: Book) returns (r: Book)
      requires Valid()
      modifies this
      ensures Valid()
      ensures r == b && books == old(books)[b.id := b] && saved == old(saved) + [b]
    {
      books := books[b.id := b];
      saved := saved + [b];
      r := b;
    }

    /** `addReview`: an unknown id gives null and saves nothing; otherwise
        the review is appended (a null list read as empty), the mean is
        recomputed and the book is saved once. */
    method AddReview(bookId: string, review: Review) returns (r: Option<Book>)
      requires Valid()
      modifies this
      ensures Valid()
      ensures bookId !in old(books) ==> r == None && books == old(books) && saved == old(saved)
      ensures bookId in old(books) ==>
                && r == Some(WithReviews(old(books)[bookId], ReviewsOf(old(books)[bookId]) + [review]))
                && books == old(books)[bookId := r.value]
                && saved == old(saved) + [r.value]
    {
      if bookId !in books {
        return None;
      }
      var b := books[bookId];
      var updated := WithReviews(b, ReviewsOf(b) + [review]);
      var _ := Save(updated);
      r := Some(updated);
    }

    /** `updateReview`: with an existing book and a non-null list, the
        first review by `reviewer` (ignoring case) is overwritten, the mean
        recomputed and the book saved once, even when nothing matched. */
    method UpdateReview(bookId: string, reviewer: string, updatedReview: Review) returns (r: Option<Book>)
      requires Valid()
      modifies this
      ensures Valid()
      ensures bookId !in old(books) ==> r == None && books == old(books) && saved == old(saved)
      ensures bookId in old(books) && old(books)[bookId].reviews.None? ==>
                r == Some(old(books)[bookId]) && books == old(books) && saved == old(saved)
      ensures bookId in old(books) && old(books)[bookId].reviews.Some? ==>
                && r == Some(WithReviews(old(books)[bookId],
                                         UpdateFirst(old(books)[bookId].reviews.value, reviewer, updatedReview)))
                && books == old(books)[bookId := r.value]
                && saved == old(saved) + [r.value]
    {
      if bookId !in books {
        return None;
      }
      var b := books[bookId];
      if b.reviews.None? {
        return Some(b);
      }
      var rs := b.reviews.value;
      var i := 0;
      while i < |rs| && !ByReviewer(rs[i], reviewer)
        invariant 0 <= i <= |rs|
        invariant forall j :: 0 <= j < i ==> !ByReviewer(rs[j], reviewer)
      {
        i := i + 1;
      }
      UpdateFirstAt(rs, reviewer, updatedReview, i);
      if i < |rs| {
        rs := rs[i := Overwritten(rs[i], updatedReview)];
      }
      var updated := WithReviews(b, rs);
      var _ := Save(updated);
      r := Some(updated);
    }

    /** `deleteReview`: with an existing book and a non-null list, every
        review by `reviewer` (ignoring case) is removed, the mean
        recomputed and the book saved once. */
    method DeleteReview(bookId: string, reviewer: string) returns (r: Option<Book>)
      requires Valid()
      modifies this
      ensures Valid()
      ensures bookId !in old(books) ==> r == None && books == old(books) && saved == old(saved)
      ensures bookId in old(books) && old(books)[bookId].reviews.None? ==>
                r == Some(old(books)[bookId]) && books == old(books) && saved == old(saved)
      ensures bookId in old(books) && old(books)[bookId].reviews.Some? ==>
                && r == Some(WithReviews(old(books)[bookId],
                                         WithoutReviewer(old(books)[bookId].reviews.value, reviewer)))
                && books == old(books)[bookId := r.value]
                && saved == old(saved) + [r.value]
    {
      if bookId !in books {
        return None;
      }
      var b := books[bookId];
      if b.reviews.None? {
        return Some(b);
      }
      var updated := WithReviews(b, WithoutReviewer(b.reviews.value, reviewer));
      var _ := Save(updated);
      r := Some(updated);
    }
  }

  /** After any review operation that leaves reviews on a book, the stored
      rating times the number of stored reviews is the sum of their ratings,
      and the rating lies between their lowest and highest rating. */
  lemma StoredRatingIsMean(b: Book, rs: seq<Review>, lo: real, hi: real)
    requires rs != []
    requires forall i :: 0 <= i < |rs| ==> lo <= rs[i].rating <= hi
    ensures var stored := WithReviews(b, rs);
            stored.ratings * (|ReviewsOf(stored)| as real) == RatingSum(ReviewsOf(stored))
    ensures lo <= WithReviews(b, rs).ratings <= hi
  {
    MeanRatingBounds(rs, lo, hi);
    var n := |rs| as real;
    assert ReviewsOf(WithReviews(b, rs)) == rs;
    assert (RatingSum(rs) / n) * n == RatingSum(rs);
  }
}
