/** RecommendationService.java: which books are recommended to a user and
    in what order. The numbers behind the order are left uninterpreted: the
    cosine similarity is a parameter (except that users sharing no rated
    book have similarity 0), and so is each candidate's final score, which
    is computed from the user's similarity table. */
module Recommendations {
  import opened Wrappers
  import opened Seqs
  import opened Store
  import opened Ranking

  const MaxRecommendations := 10

  /** `String.valueOf(review.getUserId())`: an absent id reads "null". */
  function UserKey(r: Review): string {
    match r.userId
    case None => "null"
    case Some(u) => u
  }

  /** One review as the rating matrix sees it. */
  datatype Visit = Visit(user: string, bookId: string, rating: real)

  function ReviewVisits(bookId: string, rs: seq<Review>): seq<Visit> {
    if rs == [] then []
    else ReviewVisits(bookId, rs[..|rs| - 1]) + [Visit(UserKey(rs[|rs| - 1]), bookId, rs[|rs| - 1].rating)]
  }

  /** The reviews in the order the matrix loop visits them. */
  function Visits(books: seq<Book>): seq<Visit> {
    if books == [] then []
    else
      var b := books[|books| - 1];
      Visits(books[..|books| - 1]) + ReviewVisits(b.id, ReviewsOf(b))
  }

  /** user -> (book id -> rating). */
  type Matrix = map<string, map<string, real>>

  /** `computeIfAbsent(user, new map).put(bookId, rating)`. */
  function Put(m: Matrix, v: Visit): Matrix {
    m[v.user := (if v.user in m then m[v.user] else map[])[v.bookId := v.rating]]
  }

  /** The matrix `m` after the writes `vs`, in order. */
  function Apply(m: Matrix, vs: seq<Visit>): Matrix {
    if vs == [] then m else Put(Apply(m, vs[..|vs| - 1]), vs[|vs| - 1])
  }

  function Writes(vs: seq<Visit>): Matrix {
    Apply(map[], vs)
  }

  lemma {:induction false} ApplyAppend(m: Matrix, a: seq<Visit>, b: seq<Visit>)
    ensures Apply(m, a + b) == Apply(Apply(m, a), b)
    decreases |b|
  {
    if b == [] {
      assert a + b == a;
    } else {
      assert (a + b)[..|a + b| - 1] == a + b[..|b| - 1];
      ApplyAppend(m, a, b[..|b| - 1]);
    }
  }

  /** Every user in the matrix rated something; a (user, book) cell exists
      exactly when some visited review is that user's on that book. */
  lemma {:induction false} WritesDomain(vs: seq<Visit>, u: string, id: string)
    ensures u in Writes(vs) ==> |Writes(vs)[u]| > 0
    ensures (u in Writes(vs) && id in Writes(vs)[u]) <==> exists i :: 0 <= i < |vs| && vs[i].user == u && vs[i].bookId == id
  {
    if vs != [] {
      var init := vs[..|vs| - 1];
      WritesDomain(init, u, id);
      assert Writes(vs) == Put(Writes(init), vs[|vs| - 1]);
      var m := Writes(vs);
      if u in m && id in m[u] && !(vs[|vs| - 1].user == u && vs[|vs| - 1].bookId == id) {
        var i :| 0 <= i < |init| && init[i].user == u && init[i].bookId == id;
        assert vs[i] == init[i];
      }
      if exists i :: 0 <= i < |vs| && vs[i].user == u && vs[i].bookId == id {
        var i :| 0 <= i < |vs| && vs[i].user == u && vs[i].bookId == id;
        if i < |init| {
          assert init[i] == vs[i];
        }
      }
      if u in m {
        assert vs[|vs| - 1].user == u ==> vs[|vs| - 1].bookId in m[u];
      }
    }
  }

  /** A user's rating of a book is the one of their last review of it. */
  lemma {:induction false} LastWriteWins(vs: seq<Visit>, i: nat)
    requires i < |vs|
    requires forall j :: i < j < |vs| ==> !(vs[j].user == vs[i].user && vs[j].bookId == vs[i].bookId)
    ensures vs[i].user in Writes(vs) && vs[i].bookId in Writes(vs)[vs[i].user]
    ensures Writes(vs)[vs[i].user][vs[i].bookId] == vs[i].rating
  {
    assert Writes(vs) == Put(Writes(vs[..|vs| - 1]), vs[|vs| - 1]);
    if i < |vs| - 1 {
      LastWriteWins(vs[..|vs| - 1], i);
    }
  }

  /** The items' ids over the user's own orders. */
  function PurchasedIds(orders: seq<Order>, userId: string): set<string> {
    set i, j | 0 <= i < |orders| && orders[i].userId == userId && 0 <= j < |orders[i].items| :: orders[i].items[j].itemId
  }

  /** `calculateCosineSimilarity`: 0 when no book was rated by both. */
  function Similarity(a: map<string, real>, b: map<string, real>, cosine: (map<string, real>, map<string, real>) -> real): real {
    if a.Keys * b.Keys == {} then 0.0 else cosine(a, b)
  }

  /** A book is a candidate unless the user bought or rated it. */
  predicate Candidate(id: string, purchased: set<string>, current: Option<map<string, real>>) {
    id !in purchased && !(current.Some? && id in current.value)
  }

  predicate HasId(books: seq<Book>, id: string) {
    exists k :: 0 <= k < |books| && books[k].id == id
  }

  /** `allBooks.stream().filter(id matches).findFirst()`. */
  function FirstWithId(books: seq<Book>, id: string): (r: Option<Book>)
    ensures r.Some? ==> r.value.id == id && r.value in books
    ensures r.Some? <==> HasId(books, id)
  {
    if books == [] then None
    else if books[0].id == id then Some(books[0])
    else
      var r := FirstWithId(books[1..], id);
      assert HasId(books[1..], id) ==> HasId(books, id) by {
        if HasId(books[1..], id) {
          var k :| 0 <= k < |books[1..]| && books[1..][k].id == id;
          assert books[k + 1].id == id;
        }
      }
      assert HasId(books, id) ==> HasId(books[1..], id) by {
        if HasId(books, id) {
          var k :| 0 <= k < |books| && books[k].id == id;
          assert books[1..][k - 1].id == id;
        }
      }
      r
  }

  lemma HasIdSnoc(books: seq<Book>, i: nat, id: string)
    requires i < |books|
    ensures HasId(books[..i + 1], id) <==> HasId(books[..i], id) || books[i].id == id
  {
    if HasId(books[..i + 1], id) && books[i].id != id {
      var k :| 0 <= k < i + 1 && books[..i + 1][k].id == id;
      assert books[..i][k].id == id;
    }
    if HasId(books[..i], id) {
      var k :| 0 <= k < i && books[..i][k].id == id;
      assert books[..i + 1][k].id == id;
    }
    if books[i].id == id {
      assert books[..i + 1][i].id == id;
    }
  }

  /** `map(findFirst or null).filter(nonNull)`. */
  function Resolve(keys: seq<string>, books: seq<Book>): (r: seq<Book>)
    ensures |r| <= |keys|
  {
    if keys == [] then []
    else
      var b := FirstWithId(books, keys[|keys| - 1]);
      Resolve(keys[..|keys| - 1], books) + (if b.Some? then [b.value] else [])
  }

  lemma {:induction false} ResolveAll(keys: seq<string>, books: seq<Book>)
    requires forall i :: 0 <= i < |keys| ==> FirstWithId(books, keys[i]).Some?
    ensures |Resolve(keys, books)| == |keys|
    ensures forall i :: 0 <= i < |keys| ==> Resolve(keys, books)[i].id == keys[i]
  {
    if keys != [] {
      var init, last := keys[..|keys| - 1], keys[|keys| - 1];
      assert forall i :: 0 <= i < |init| ==> init[i] == keys[i];
      ResolveAll(init, books);
      assert FirstWithId(books, last).Some?;
      var r := Resolve(keys, books);
      assert r == Resolve(init, books) + [FirstWithId(books, last).value];
      forall i | 0 <= i < |keys|
        ensures r[i].id == keys[i]
      {
        if i < |init| {
          assert r[i] == Resolve(init, books)[i];
        }
      }
    }
  }

  /** The recommendation for a ranking `r` of the candidates. */
  function FromRanking(r: seq<Entry>, books: seq<Book>): seq<Book> {
    Take(Resolve(Keys(r), books), MaxRecommendations)
  }

  /** The inner loop of the matrix: one book's reviews. */
  method PutReviews(m0: Matrix, bookId: string, rs: seq<Review>) returns (m: Matrix)
    ensures m == Apply(m0, ReviewVisits(bookId, rs))
  {
    m := m0;
    var j := 0;
    while j < |rs|
      invariant 0 <= j <= |rs|
      invariant m == Apply(m0, ReviewVisits(bookId, rs[..j]))
    {
      assert rs[..j + 1][..j] == rs[..j];
      m := Put(m, Visit(UserKey(rs[j]), bookId, rs[j].rating));
      j := j + 1;
    }
    assert rs[..|rs|] == rs;
  }

  /** The matrix loop. */
  method BuildMatrix(books: seq<Book>) returns (m: Matrix)
    ensures m == Writes(Visits(books))
  {
    m := map[];
    var i := 0;
    while i < |books|
      invariant 0 <= i <= |books|
      invariant m == Writes(Visits(books[..i]))
    {
      var book := books[i];
      m := PutReviews(m, book.id, ReviewsOf(book));
      assert books[..i + 1][..i] == books[..i];
      assert Visits(books[..i + 1]) == Visits(books[..i]) + ReviewVisits(book.id, ReviewsOf(book));
      ApplyAppend(map[], Visits(books[..i]), ReviewVisits(book.id, ReviewsOf(book)));
      i := i + 1;
    }
    assert books[..|books|] == books;
  }

  /** The similarity table of `userId`: every other user of the matrix whose
      similarity with them is positive, with that similarity. */
  function SimilarityTable(m: Matrix, userId: string, cosine: (map<string, real>, map<string, real>) -> real)
    : map<string, real>
  {
    if userId !in m then map[]
    else map u | u in m && u != userId && Similarity(m[userId], m[u], cosine) > 0.0 :: Similarity(m[userId], m[u], cosine)
  }

  /** The similarity loop: every other user whose similarity is positive. */
  method Similarities(m: Matrix, userId: string, cosine: (map<string, real>, map<string, real>) -> real)
    returns (sims: map<string, real>)
    ensures sims == SimilarityTable(m, userId, cosine)
    ensures userId !in m ==> sims == map[]
    ensures forall u :: u in sims <==> userId in m && u in m && u != userId && Similarity(m[userId], m[u], cosine) > 0.0
    ensures forall u :: u in sims ==> sims[u] == Similarity(m[userId], m[u], cosine)
  {
    sims := map[];
    if userId in m {
      var current := m[userId];
      var remaining := m.Keys;
      while remaining != {}
        invariant remaining <= m.Keys
        invariant forall u :: u in sims <==> u in m && u !in remaining && u != userId && Similarity(current, m[u], cosine) > 0.0
        invariant forall u :: u in sims ==> sims[u] == Similarity(current, m[u], cosine)
        decreases |remaining|
      {
        var other :| other in remaining;
        if other != userId {
          var sim := Similarity(current, m[other], cosine);
          if sim > 0.0 {
            sims := sims[other := sim];
          }
        }
        remaining := remaining - {other};
      }
    }
  }

  /** A book's final score, given the user's similarity table. */
  function ScoreWith(score: (map<string, real>, string) -> real, sims: map<string, real>): string -> real {
    id => score(sims, id)
  }

  /** The final-score loop: each candidate book's score, computed from the
      similarity table `sims`. */
  method FinalScores(books: seq<Book>, purchased: set<string>, current: Option<map<string, real>>,
                     sims: map<string, real>, score: (map<string, real>, string) -> real)
    returns (scores: map<string, real>)
    ensures forall id :: id in scores <==> Candidate(id, purchased, current) && HasId(books, id)
    ensures forall id :: id in scores ==> scores[id] == score(sims, id)
  {
    scores := map[];
    var i := 0;
    while i < |books|
      invariant 0 <= i <= |books|
      invariant forall id :: id in scores <==> Candidate(id, purchased, current) && HasId(books[..i], id)
      invariant forall id :: id in scores ==> scores[id] == score(sims, id)
    {
      var bookId := books[i].id;
      if Candidate(bookId, purchased, current) {
        scores := scores[bookId := score(sims, bookId)];
      }
      forall id
        ensures HasId(books[..i + 1], id) <==> HasId(books[..i], id) || id == bookId
      {
        HasIdSnoc(books, i, id);
      }
      i := i + 1;
    }
    assert books[..|books|] == books;
  }

  /** `recommendBooks`. A book whose review list is null makes the call
      throw, which is `None`. A user with no purchases and no ratings gets
      the empty list. Otherwise the candidates are ranked by score in an
      order among equal scores that is not specified, and the first ten
      are returned. */
  method RecommendBooks(userId: string, orders: seq<Order>, books: seq<Book>,
                        cosine: (map<string, real>, map<string, real>) -> real,
                        score: (map<string, real>, string) -> real)
    returns (result: Option<seq<Book>>)
    ensures result.None? <==> exists i :: 0 <= i < |books| && books[i].reviews.None?
    ensures result.Some? && PurchasedIds(orders, userId) == {} && userId !in Writes(Visits(books)) ==> result.value == []
    ensures result.Some? && !(PurchasedIds(orders, userId) == {} && userId !in Writes(Visits(books))) ==>
              exists r :: RanksCandidates(r, books, PurchasedIds(orders, userId), CurrentRatings(books, userId),
                                          ScoreWith(score, SimilarityTable(Writes(Visits(books)), userId, cosine)))
                          && result.value == FromRanking(r, books)
  {
    // The matrix loop throws at the first book whose review list is null.
    var i := 0;
    while i < |books| && books[i].reviews.Some?
      invariant 0 <= i <= |books|
      invariant forall k :: 0 <= k < i ==> books[k].reviews.Some?
    {
      i := i + 1;
    }
    if i < |books| {
      result := None;
    } else {
      var purchased := PurchasedFrom(orders, userId);
      var m := BuildMatrix(books);
      var current := if userId in m then Some(m[userId]) else None;
      if purchased == {} && (current.None? || current.value == map[]) {
        WritesDomain(Visits(books), userId, "");
        result := Some([]);
      } else {
        var sims := Similarities(m, userId, cosine);
        var scores := FinalScores(books, purchased, current, sims, score);
        var ranking := RankScores(scores);
        result := Some(FromRanking(ranking, books));
        RanksScoresRanksCandidates(ranking, scores, books, purchased, current, ScoreWith(score, sims));
      }
    }
  }

  lemma RanksScoresRanksCandidates(r: seq<Entry>, scores: map<string, real>, books: seq<Book>, purchased: set<string>,
                                   current: Option<map<string, real>>, score: string -> real)
    requires RanksAll(r, scores)
    requires forall id :: id in scores <==> Candidate(id, purchased, current) && HasId(books, id)
    requires forall id :: id in scores ==> scores[id] == score(id)
    ensures RanksCandidates(r, books, purchased, current, score)
  {
    forall id | Candidate(id, purchased, current) && HasId(books, id)
      ensures exists i :: 0 <= i < |r| && r[i].key == id
    {
      assert id in scores;
    }
  }

  /** `userRatings.get(userId)`. */
  function CurrentRatings(books: seq<Book>, userId: string): Option<map<string, real>> {
    var m := Writes(Visits(books));
    if userId in m then Some(m[userId]) else None
  }

  /** `r` ranks exactly the candidate books of `books` by score. */
  ghost predicate RanksCandidates(r: seq<Entry>, books: seq<Book>, purchased: set<string>,
                            current: Option<map<string, real>>, score: string -> real)
  {
    && SortedDesc(r) && DistinctKeys(r)
    && (forall i :: 0 <= i < |r| ==> Candidate(r[i].key, purchased, current) && HasId(books, r[i].key)
                                     && r[i].score == score(r[i].key))
    && (forall id :: Candidate(id, purchased, current) && HasId(books, id) ==>
                       exists i :: 0 <= i < |r| && r[i].key == id)
  }

  /** The purchased-id set, gathered order by order. */
  method PurchasedFrom(orders: seq<Order>, userId: string) returns (ids: set<string>)
    ensures ids == PurchasedIds(orders, userId)
  {
    ids := {};
    var i := 0;
    while i < |orders|
      invariant 0 <= i <= |orders|
      invariant ids == PurchasedIds(orders[..i], userId)
    {
      if orders[i].userId == userId {
        ids := ids + set j | 0 <= j < |orders[i].items| :: orders[i].items[j].itemId;
      }
      assert forall k :: 0 <= k < i ==> orders[..i + 1][k] == orders[..i][k];
      i := i + 1;
    }
    assert orders[..|orders|] == orders;
  }

  /** The recommended books are the first (at most ten) ranked keys'
      books. */
  lemma RecommendedIds(r: seq<Entry>, books: seq<Book>)
    requires forall i :: 0 <= i < |r| ==> HasId(books, r[i].key)
    ensures |FromRanking(r, books)| <= MaxRecommendations && |FromRanking(r, books)| <= |r|
    ensures forall i :: 0 <= i < |FromRanking(r, books)| ==> FromRanking(r, books)[i].id == r[i].key
  {
    var keys := Keys(r);
    ResolveAll(keys, books);
  }

  /** What any recommendation promises: at most ten books, none bought or
      rated by the user, each book once, and scores non-increasing. */
  lemma RecommendationProperties(r: seq<Entry>, books: seq<Book>, purchased: set<string>,
                                 current: Option<map<string, real>>, score: string -> real)
    requires RanksCandidates(r, books, purchased, current, score)
    ensures |FromRanking(r, books)| <= MaxRecommendations
    ensures forall i :: 0 <= i < |FromRanking(r, books)| ==> Candidate(FromRanking(r, books)[i].id, purchased, current)
    ensures forall i, j :: 0 <= i < j < |FromRanking(r, books)| ==> FromRanking(r, books)[i].id != FromRanking(r, books)[j].id
    ensures forall i, j :: 0 <= i < j < |FromRanking(r, books)| ==>
              score(FromRanking(r, books)[i].id) >= score(FromRanking(r, books)[j].id)
  {
    RecommendedIds(r, books);
  }
}
