/** The book reader: a library filtered by a search term, a list of
    bookmarked book ids, and a chapter index kept inside the open book. The
    library is the fixed sample catalogue, supplied when the screen is
    created; a book is reduced to the fields these rules read. */
module BookReader {
  import opened Common

  datatype Book = Book(id: string, title: string, author: string, category: string, chapters: nat)

  /** The library search: the term occurs, ignoring case, in the title, author or category. */
  predicate BookMatches(b: Book, term: string) {
    ContainsIgnoringCase(b.title, term) || ContainsIgnoringCase(b.author, term)
    || ContainsIgnoringCase(b.category, term)
  }

  /** `filteredBooks`. */
  function FilterBooks(books: seq<Book>, term: string): (r: seq<Book>)
    ensures forall b :: b in r <==> b in books && BookMatches(b, term)
    ensures IsSubsequence(r, books)
  {
    Filter(books, b => BookMatches(b, term))
  }

  // ------------------------------------------------------------- bookmarks

  predicate Other(id: string, x: string) {
    x != id
  }

  /** `toggleBookmark`: drop the id when present, append it otherwise. */
  function ToggleBookmark(marks: seq<string>, id: string): (r: seq<string>)
    ensures id in r <==> id !in marks
    ensures forall x :: x != id ==> (x in r <==> x in marks)
  {
    if id in marks then Filter(marks, x => Other(id, x)) else marks + [id]
  }

  /** Toggling an absent id twice gives back the same list. */
  lemma ToggleTwiceRestores(marks: seq<string>, id: string)
    requires id !in marks
    ensures ToggleBookmark(ToggleBookmark(marks, id), id) == marks
  {
    var keep := x => Other(id, x);
    FilterConcat(marks, [id], keep);
    assert Filter([id], keep) == [] by {
      assert [id][1..] == [];
    }
    FilterKeepsAll(marks, keep);
  }

  /** Filtering a list without duplicates leaves none. */
  lemma {:induction false} FilterKeepsNoDuplicates(s: seq<string>, p: string -> bool)
    requires NoDuplicates(s)
    ensures NoDuplicates(Filter(s, p))
  {
    if s != [] {
      assert NoDuplicates(s[1..]) by {
        assert forall i :: 0 <= i < |s[1..]| ==> s[1..][i] == s[i + 1];
      }
      FilterKeepsNoDuplicates(s[1..], p);
      if p(s[0]) {
        var r := Filter(s[1..], p);
        assert s[0] !in s[1..];
        assert s[0] !in r;
        assert forall i :: 1 <= i < |r| + 1 ==> ([s[0]] + r)[i] == r[i - 1];
      }
    }
  }

  /** The list never holds an id twice. */
  lemma ToggleKeepsNoDuplicates(marks: seq<string>, id: string)
    requires NoDuplicates(marks)
    ensures NoDuplicates(ToggleBookmark(marks, id))
  {
    if id in marks {
      FilterKeepsNoDuplicates(marks, x => Other(id, x));
    }
  }

  // ------------------------------------------------------------- chapters

  /** The Previous Chapter button: `Math.max(0, c - 1)`. */
  function PrevChapter(c: int): (r: int)
    ensures r == if c > 0 then c - 1 else 0
  {
    if c - 1 > 0 then c - 1 else 0
  }

  /** The Next Chapter button: `Math.min(len - 1, c + 1)`. */
  function NextChapter(c: int, len: int): (r: int)
    ensures r == if c + 1 < len then c + 1 else len - 1
  {
    if len - 1 < c + 1 then len - 1 else c + 1
  }

  /** Both buttons keep the chapter index inside the book. */
  lemma ChapterStaysInBook(c: int, len: int)
    requires 0 <= c < len
    ensures 0 <= PrevChapter(c) < len && 0 <= NextChapter(c, len) < len
    ensures PrevChapter(c) <= c <= NextChapter(c, len)
  {
  }

  class ReaderScreen {
    const books: seq<Book>
    var selectedBook: Option<Book>
    var currentChapter: int
    var searchTerm: string
    var bookmarks: seq<string>

    /** The open book is from the library and the chapter index is one of its chapters. */
    ghost predicate Valid()
      reads this
    {
      && (forall b :: b in books ==> b.chapters > 0)
      && NoDuplicates(bookmarks)
      && (selectedBook.Some? ==> selectedBook.value in books && 0 <= currentChapter < selectedBook.value.chapters)
    }

    constructor (books: seq<Book>)
      requires forall b :: b in books ==> b.chapters > 0
      ensures Valid() && this.books == books && selectedBook == None && currentChapter == 0
      ensures searchTerm == "" && bookmarks == []
    {
      this.books := books;
      selectedBook := None;
      currentChapter := 0;
      searchTerm := "";
      bookmarks := [];
    }

    function FilteredBooks(): seq<Book>
      reads this
    {
      FilterBooks(books, searchTerm)
    }

    method SetSearchTerm(term: string)
      requires Valid()
      modifies this
      ensures Valid() && searchTerm == term
      ensures selectedBook == old(selectedBook) && currentChapter == old(currentChapter)
      ensures bookmarks == old(bookmarks)
    {
      searchTerm := term;
    }

    method ToggleBookmarkOf(id: string)
      requires Valid()
      modifies this
      ensures Valid() && bookmarks == ToggleBookmark(old(bookmarks), id)
      ensures selectedBook == old(selectedBook) && currentChapter == old(currentChapter)
      ensures searchTerm == old(searchTerm)
    {
      ToggleKeepsNoDuplicates(bookmarks, id);
      bookmarks := ToggleBookmark(bookmarks, id);
    }

    /** `startReading`: open the book at its first chapter. */
    method StartReading(book: Book)
      requires Valid() && book in books
      modifies this
      ensures Valid() && selectedBook == Some(book) && currentChapter == 0
      ensures searchTerm == old(searchTerm) && bookmarks == old(bookmarks)
    {
      selectedBook := Some(book);
      currentChapter := 0;
    }

    /** Back to the library. */
    method CloseBook()
      requires Valid()
      modifies this
      ensures Valid() && selectedBook == None && currentChapter == old(currentChapter)
      ensures searchTerm == old(searchTerm) && bookmarks == old(bookmarks)
    {
      selectedBook := None;
    }

    /** A chapter button in the contents list of the open book. */
    method GoToChapter(index: nat)
      requires Valid() && selectedBook.Some? && index < selectedBook.value.chapters
      modifies this
      ensures Valid() && currentChapter == index
      ensures selectedBook == old(selectedBook)
      ensures searchTerm == old(searchTerm) && bookmarks == old(bookmarks)
    {
      currentChapter := index;
    }

    method GoToPreviousChapter()
      requires Valid() && selectedBook.Some?
      modifies this
      ensures Valid() && currentChapter == PrevChapter(old(currentChapter))
      ensures selectedBook == old(selectedBook)
      ensures searchTerm == old(searchTerm) && bookmarks == old(bookmarks)
    {
      ChapterStaysInBook(currentChapter, selectedBook.value.chapters);
      currentChapter := PrevChapter(currentChapter);
    }

    method GoToNextChapter()
      requires Valid() && selectedBook.Some?
      modifies this
      ensures Valid() && currentChapter == NextChapter(old(currentChapter), old(selectedBook).value.chapters)
      ensures selectedBook == old(selectedBook)
      ensures searchTerm == old(searchTerm) && bookmarks == old(bookmarks)
    {
      ChapterStaysInBook(currentChapter, selectedBook.value.chapters);
      currentChapter := NextChapter(currentChapter, selectedBook.value.chapters);
    }
  }
}
