/**
 * The accessible list of liked books on the "my page" screen: the search filter over the
 * liked books and the removal of a book when it is unliked.
 */
module LikedBooks {
  import opened Text

  /** A liked book as the list shows it. */
  datatype Book = Book(bookId: int, title: string, author: string)

  /** `a` is `b` with some elements left out and the rest in their original order. */
  predicate IsSubsequence<T(==)>(a: seq<T>, b: seq<T>)
  {
    if a == [] then true
    else if b == [] then false
    else if a[0] == b[0] then IsSubsequence(a[1..], b[1..])
    else IsSubsequence(a, b[1..])
  }

  /**
   * `Array.prototype.filter`: the elements that `keep` accepts, in their original order, each
   * as often as it occurs in `s`.
   */
  function Filter<T(==,!new)>(s: seq<T>, keep: T -> bool): (r: seq<T>)
    ensures IsSubsequence(r, s)
    ensures forall x :: multiset(r)[x] == if keep(x) then multiset(s)[x] else 0
    ensures (forall k :: 0 <= k < |s| ==> keep(s[k])) ==> r == s
  {
    if s == [] then []
    else
      var rest := Filter(s[1..], keep);
      assert s == [s[0]] + s[1..];
      if keep(s[0]) then
        assert ([s[0]] + rest)[1..] == rest;
        [s[0]] + rest
      else
        rest
  }

  /** Lower-casing (`toLowerCase`), taken as given: any function from strings to strings. */
  type LowerCase = string -> string

  /** The filter condition: an empty query, or a title or author containing the query, all lower-cased. */
  predicate Matches(book: Book, searchQuery: string, toLowerCase: LowerCase)
  {
    || searchQuery == ""
    || Includes(toLowerCase(book.title), toLowerCase(searchQuery))
    || Includes(toLowerCase(book.author), toLowerCase(searchQuery))
  }

  /** `filteredBooks`: the liked books the search query selects. */
  function FilteredBooks(likedBooks: seq<Book>, searchQuery: string, toLowerCase: LowerCase): (r: seq<Book>)
    ensures IsSubsequence(r, likedBooks)
    ensures forall b :: b in r <==> b in likedBooks && Matches(b, searchQuery, toLowerCase)
    ensures forall b :: multiset(r)[b] == if Matches(b, searchQuery, toLowerCase) then multiset(likedBooks)[b] else 0
    ensures searchQuery == "" ==> r == likedBooks
  {
    var r := Filter(likedBooks, (b: Book) => Matches(b, searchQuery, toLowerCase));
    assert forall b :: b in r <==> multiset(r)[b] > 0;
    r
  }

  /** The list `handleUnlike` leaves: every book with another id, in the original order. */
  function WithoutBook(books: seq<Book>, bookId: int): (r: seq<Book>)
    ensures IsSubsequence(r, books)
    ensures forall b :: b in r <==> b in books && b.bookId != bookId
    ensures forall b :: multiset(r)[b] == if b.bookId != bookId then multiset(books)[b] else 0
    ensures (forall k :: 0 <= k < |books| ==> books[k].bookId != bookId) ==> r == books
  {
    var r := Filter(books, (b: Book) => b.bookId != bookId);
    assert forall b :: b in r <==> multiset(r)[b] > 0;
    r
  }

  /** Removing the same id twice removes nothing more. */
  lemma UnlikeIsIdempotent(books: seq<Book>, bookId: int)
    ensures WithoutBook(WithoutBook(books, bookId), bookId) == WithoutBook(books, bookId)
  {
  }

  /** The component's `likedBooks` state; the search query arrives as a property. */
  class LikedBooksList {
    var likedBooks: seq<Book>

    /** `useState(books)`: the list starts as the books passed in. */
    constructor (books: seq<Book>)
      ensures likedBooks == books
    {
      likedBooks := books;
    }

    /** `handleUnlike`: drops every book with the given id; the announcement is not modelled. */
    method HandleUnlike(bookId: int, bookTitle: string)
      modifies this
      ensures likedBooks == WithoutBook(old(likedBooks), bookId)
    {
      likedBooks := WithoutBook(likedBooks, bookId);
    }
  }
}
