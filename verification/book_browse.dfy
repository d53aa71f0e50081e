// The book catalogue screen: the genre drop-down, the title/author search
// box and the "Recommended For You" carousel.

module BookBrowsing {
  import opened Wrappers
  import opened Text
  import opened Seqs

  /** A book as the catalogue query hands it to the screen. */
  datatype ListedBook = ListedBook(id: string, title: string, author: string, sellerId: string)

  /** The genre choices of the drop-down. A genre is the account of the seller
      who lists that genre's books; "All" stands for no restriction. */
  const GenreSellers: map<string, Option<string>> := map[
    "All" := None,
    "Philosophy" := Some("680164353f557f359a63b20c"),
    "Sci-Fi" := Some("6801643b3f557f359a63b20d"),
    "Horror" := Some("680164413f557f359a63b20e"),
    "Autobiography" := Some("680164483f557f359a63b20f"),
    "Kids" := Some("6801644e3f557f359a63b210")
  ]

  /** The carousel shows at most this many recommended books. */
  const CarouselSize := 7

  /** A genre that is not a key, or that maps to no seller, lets every book
      through; otherwise only that seller's books pass. */
  predicate MatchesGenre(b: ListedBook, genre: string) {
    genre !in GenreSellers || GenreSellers[genre].None? || b.sellerId == GenreSellers[genre].value
  }

  /** The search text occurs in the title or in the author, ignoring case. */
  predicate MatchesSearch(b: ListedBook, text: string) {
    Contains(Lower(b.title), Lower(text)) || Contains(Lower(b.author), Lower(text))
  }

  predicate Shown(b: ListedBook, genre: string, text: string) {
    MatchesGenre(b, genre) && MatchesSearch(b, text)
  }

  /** The books listed under the drop-down, in catalogue order. */
  function Visible(books: seq<ListedBook>, genre: string, text: string): seq<ListedBook> {
    Filter(books, b => Shown(b, genre, text))
  }

  /** The list is the catalogue with exactly the non-matching books removed. */
  lemma VisibleProperties(books: seq<ListedBook>, genre: string, text: string)
    ensures IsSubsequence(Visible(books, genre, text), books)
    ensures forall i :: 0 <= i < |Visible(books, genre, text)| ==>
      Shown(Visible(books, genre, text)[i], genre, text)
    ensures forall i :: 0 <= i < |books| && Shown(books[i], genre, text) ==>
      books[i] in Visible(books, genre, text)
  {
    FilterIsSubsequence(books, b => Shown(b, genre, text));
  }

  /** "All" restricts nothing; every other choice keeps exactly the books of
      its seller. */
  lemma GenreMeaning(b: ListedBook, genre: string)
    requires genre in GenreSellers
    ensures genre == "All" ==> MatchesGenre(b, genre)
    ensures genre != "All" ==>
      (MatchesGenre(b, genre) <==> GenreSellers[genre].Some? && b.sellerId == GenreSellers[genre].value)
  {
  }

  /** Text that differs only in case selects the same books. */
  lemma {:induction false} SearchIgnoresCase(books: seq<ListedBook>, genre: string, text: string, text': string)
    requires Lower(text) == Lower(text')
    ensures Visible(books, genre, text) == Visible(books, genre, text')
  {
    FilterCongruent(books, b => Shown(b, genre, text), b => Shown(b, genre, text'));
  }

  /** An empty search box matches every book. */
  lemma EmptySearchMatches(b: ListedBook)
    ensures MatchesSearch(b, "")
  {
    ContainsEmpty(Lower(b.title));
  }

  /** With "All" chosen and an empty search box the whole catalogue is listed. */
  lemma {:induction false} UnfilteredShowsAll(books: seq<ListedBook>)
    ensures Visible(books, "All", "") == books
  {
    forall i | 0 <= i < |books|
      ensures Shown(books[i], "All", "")
    {
      EmptySearchMatches(books[i]);
    }
    FilterAll(books, b => Shown(b, "All", ""));
  }

  /** The two filters compose: the list is the genre's books narrowed by the
      search, and also the search's books narrowed by the genre. */
  lemma {:induction false} FiltersCompose(books: seq<ListedBook>, genre: string, text: string)
    ensures Visible(books, genre, text) == Filter(Filter(books, b => MatchesGenre(b, genre)), b => MatchesSearch(b, text))
    ensures Visible(books, genre, text) == Filter(Filter(books, b => MatchesSearch(b, text)), b => MatchesGenre(b, genre))
  {
    FilterTwice(books, b => MatchesGenre(b, genre), b => MatchesSearch(b, text), b => Shown(b, genre, text));
    FilterTwice(books, b => MatchesSearch(b, text), b => MatchesGenre(b, genre), b => Shown(b, genre, text));
  }

  lemma {:induction false} LowerAppend(a: string, b: string)
    ensures Lower(a + b) == Lower(a) + Lower(b)
  {
    var whole, parts := Lower(a + b), Lower(a) + Lower(b);
    forall i | 0 <= i < |a + b|
      ensures whole[i] == parts[i]
    {
      if i < |a| {
        assert (a + b)[i] == a[i];
      } else {
        assert (a + b)[i] == b[i - |a|];
      }
    }
    assert whole == parts;
  }

  lemma {:induction false} ContainsShorter(s: string, p: string, q: string)
    requires Contains(s, p + q)
    ensures Contains(s, p)
    decreases |s|
  {
    if StartsWith(s, p + q) {
      assert s[..|p|] == (p + q)[..|p|] == p;
    } else {
      ContainsShorter(s[1..], p, q);
    }
  }

  /** Typing more characters into the search box never brings a book back:
      every book listed for the longer text is listed for the shorter one. */
  lemma {:induction false} LongerSearchNarrows(books: seq<ListedBook>, genre: string, text: string, more: string)
    ensures forall b :: b in Visible(books, genre, text + more) ==> b in Visible(books, genre, text)
  {
    LowerAppend(text, more);
    forall b | b in Visible(books, genre, text + more)
      ensures b in Visible(books, genre, text)
    {
      var i :| 0 <= i < |Visible(books, genre, text + more)| && Visible(books, genre, text + more)[i] == b;
      assert Shown(b, genre, text + more);
      if Contains(Lower(b.title), Lower(text) + Lower(more)) {
        ContainsShorter(Lower(b.title), Lower(text), Lower(more));
      } else {
        ContainsShorter(Lower(b.author), Lower(text), Lower(more));
      }
      var j :| 0 <= j < |books| && books[j] == b;
      assert Shown(books[j], genre, text);
    }
  }

  /** The recommendations the screen holds: none until a signed-in user's
      query has answered (the query is skipped for a guest). */
  function Recommended<T>(userId: Option<string>, answer: Option<seq<T>>): (r: seq<T>)
    ensures userId.None? ==> r == []
    ensures userId.Some? && answer.Some? ==> r == answer.value
    ensures userId.Some? && answer.None? ==> r == []
  {
    if userId.None? then [] else answer.GetOr([])
  }

  /** The carousel: the first recommendations, at most seven of them. */
  function Carousel<T>(recommended: seq<T>): (c: seq<T>)
    ensures |c| <= CarouselSize
    ensures c <= recommended
    ensures |recommended| <= CarouselSize ==> c == recommended
    ensures |recommended| >= CarouselSize ==> |c| == CarouselSize
  {
    if |recommended| <= CarouselSize then recommended else recommended[..CarouselSize]
  }

  /** The state of the catalogue screen. */
  class BookShelf {
    var books: seq<ListedBook>
    var genre: string
    var searchText: string

    predicate Valid()
      reads this
    {
      genre in GenreSellers
    }

    constructor ()
      ensures Valid()
      ensures books == [] && genre == "All" && searchText == ""
    {
      books := [];
      genre := "All";
      searchText := "";
    }

    /** The books of the current answer replace the held list once the query
        has settled with a list; otherwise the held list stays. */
    method Receive(answer: Option<seq<ListedBook>>, loading: bool)
      modifies this`books
      ensures books == (if answer.Some? && !loading then answer.value else old(books))
    {
      if answer.Some? && !loading {
        books := answer.value;
      }
    }

    /** A choice from the drop-down, which offers only the genre names. */
    method SelectGenre(g: string)
      requires g in GenreSellers
      modifies this`genre
      ensures Valid() && genre == g
    {
      genre := g;
    }

    method Type(text: string)
      modifies this`searchText
      ensures searchText == text
    {
      searchText := text;
    }

    /** What the screen lists right now. */
    function Listed(): seq<ListedBook>
      reads this
    {
      Visible(books, genre, searchText)
    }
  }
}
