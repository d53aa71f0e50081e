/** BookResolver.java: a seller uploads a book or updates one. Both go
    through the book service. */
module BookMutations {
  import opened Wrappers
  import opened Store
  import opened Books

  const DuplicateBookMessage := "This book already exists for the seller. Duplicate uploads are not allowed."
  const UploadedMessage := "Upload successful!"
  const BookNotFoundMessage := "Book not found."
  const BookUpdatedMessage := "Book updated successfully."

  datatype UploadBookResponse = UploadBookResponse(success: bool, message: string, book: Option<Book>)

  /** The fields a seller supplies. */
  datatype BookFields = BookFields(title: string, author: string, totalQuantity: int, price: int,
                                   imageUrl: string, description: string, sellerId: string)

  /** The uploaded book: the given fields, an empty review list, rating 0. */
  function NewBook(id: string, f: BookFields): (b: Book)
    ensures b.id == id && b.reviews == Some([]) && b.ratings == 0.0
    ensures b.title == f.title && b.sellerId == f.sellerId
  {
    Book(id, f.title, f.author, f.totalQuantity, f.price, f.imageUrl, f.description, f.sellerId, Some([]), 0.0)
  }

  /** `updateBook`'s setters: title, author, totalQuantity, price,
      imageUrl, description and sellerId replaced; id, reviews and ratings
      kept. */
  function Overwrite(b: Book, f: BookFields): (r: Book)
    ensures r.id == b.id && r.reviews == b.reviews && r.ratings == b.ratings
    ensures r.title == f.title && r.author == f.author && r.totalQuantity == f.totalQuantity
    ensures r.price == f.price && r.imageUrl == f.imageUrl && r.description == f.description
    ensures r.sellerId == f.sellerId
  {
    b.(title := f.title, author := f.author, totalQuantity := f.totalQuantity, price := f.price,
       imageUrl := f.imageUrl, description := f.description, sellerId := f.sellerId)
  }

  class BookResolver {
    const service: BookService

    constructor (s: BookService)
      ensures service == s
    {
      service := s;
    }

    /** `uploadBook`: an existing (title, sellerId) is refused and nothing
        is saved; otherwise a new book is saved once and returned. A lookup
        that matches several books fails the request. `newId` is the id the
        database assigns, unused so far. */
    method UploadBook(f: BookFields, newId: string) returns (answer: Answer<UploadBookResponse>)
      requires service.Valid() && newId !in service.books
      modifies service
      ensures service.Valid()
      ensures var titled := TitleMatches(old(service.books), BookTitle, BookSeller, f.title, f.sellerId);
              && (|titled| >= 2 ==> answer == LookupFailed)
              && (|titled| == 1 ==> answer == Answered(UploadBookResponse(false, DuplicateBookMessage, None)))
              && (titled != {} ==> service.books == old(service.books) && service.saved == old(service.saved))
              && (titled == {} ==>
                    && answer == Answered(UploadBookResponse(true, UploadedMessage, Some(NewBook(newId, f))))
                    && service.books == old(service.books)[newId := NewBook(newId, f)]
                    && service.saved == old(service.saved) + [NewBook(newId, f)])
      ensures UniqueTitleSeller(old(service.books), BookTitle, BookSeller) ==> UniqueTitleSeller(service.books, BookTitle, BookSeller)
    {
      var existing := service.FindByTitleAndSellerId(f.title, f.sellerId);
      if existing == SeveralMatches {
        return LookupFailed;
      }
      if existing.OneMatch? {
        return Answered(UploadBookResponse(false, DuplicateBookMessage, None));
      }
      if UniqueTitleSeller(service.books, BookTitle, BookSeller) {
        UploadKeepsUnique(service.books, BookTitle, BookSeller, newId, NewBook(newId, f));
      }
      var saved := service.Save(NewBook(newId, f));
      answer := Answered(UploadBookResponse(true, UploadedMessage, Some(saved)));
    }

    /** `updateBook`: an unknown id is refused with the store unchanged;
        otherwise the seven fields are overwritten with no duplicate check
        and the book is saved once. */
    method UpdateBook(id: string, f: BookFields) returns (resp: UploadBookResponse)
      requires service.Valid()
      modifies service
      ensures service.Valid()
      ensures id !in old(service.books) ==>
                && resp == UploadBookResponse(false, BookNotFoundMessage, None)
                && service.books == old(service.books) && service.saved == old(service.saved)
      ensures id in old(service.books) ==>
                && resp == UploadBookResponse(true, BookUpdatedMessage, Some(Overwrite(old(service.books)[id], f)))
                && service.books == old(service.books)[id := Overwrite(old(service.books)[id], f)]
                && service.saved == old(service.saved) + [Overwrite(old(service.books)[id], f)]
    {
      if id !in service.books {
        return UploadBookResponse(false, BookNotFoundMessage, None);
      }
      var updated := service.Save(Overwrite(service.books[id], f));
      resp := UploadBookResponse(true, BookUpdatedMessage, Some(updated));
    }
  }

  /** `updateBook` performs no duplicate check: giving one book another
      book's title and seller breaks the uniqueness of (title, sellerId). */
  lemma UpdateCanBreakUnique()
    ensures var a := Book("a", "Dune", "", 1, 100, "", "", "s1", Some([]), 0.0);
            var b := Book("b", "Emma", "", 1, 100, "", "", "s1", Some([]), 0.0);
            var books := map["a" := a, "b" := b];
            UniqueTitleSeller(books, BookTitle, BookSeller)
            && !UniqueTitleSeller(books["b" := Overwrite(b, BookFields("Dune", "", 1, 100, "", "", "s1"))], BookTitle, BookSeller)
  {
    var a := Book("a", "Dune", "", 1, 100, "", "", "s1", Some([]), 0.0);
    var b := Book("b", "Emma", "", 1, 100, "", "", "s1", Some([]), 0.0);
    var books := map["a" := a, "b" := b];
    var after := books["b" := Overwrite(b, BookFields("Dune", "", 1, 100, "", "", "s1"))];
    assert "a" in after && "b" in after && "a" != "b";
    assert after["a"].title == after["b"].title;
    assert "Dune" != "Emma" by { assert "Dune"[0] != "Emma"[0]; }
  }
}
