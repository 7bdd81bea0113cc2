/**
 * The search page (src/pages/SearchBooks.tsx): the listing record, the
 * filter chain behind the result grid, and the labels shown on each card.
 */
module SearchBooks {
  import opened Optional
  import opened Text
  import opened Seqs

  /** A row of the `books` table as the page reads it. Prices are whole dollars. */
  datatype Listing = Listing(
    id: string,
    title: string,
    author: string,
    courseCode: Option<string>,
    category: string,
    condition: string,
    listingType: string,
    price: Option<int>,
    location: string,
    verified: bool,
    createdAt: string,
    userId: string)

  /** The search box and the three drop-downs; `""` means "all". */
  datatype Criteria = Criteria(searchTerm: string, category: string, condition: string, listingType: string)

  const NoCriteria := Criteria("", "", "", "")

  /** The search box's test: the term, lower-cased, occurs in the lower-cased title, author or course code. */
  predicate MatchesTerm(b: Listing, term: string) {
    var t := Lower(term);
    Contains(Lower(b.title), t)
    || Contains(Lower(b.author), t)
    || (b.courseCode.Some? && Contains(Lower(b.courseCode.value), t))
  }

  /** A listing passes every filter that is set. */
  predicate Selected(b: Listing, c: Criteria) {
    && (c.searchTerm != "" ==> MatchesTerm(b, c.searchTerm))
    && (c.category != "" ==> b.category == c.category)
    && (c.condition != "" ==> b.condition == c.condition)
    && (c.listingType != "" ==> b.listingType == c.listingType)
  }

  function SelectedBy(c: Criteria): Listing -> bool {
    b => Selected(b, c)
  }

  /** What the result grid shows: the listings that pass every filter that is set. */
  function SearchResults(books: seq<Listing>, c: Criteria): seq<Listing> {
    Filter(books, SelectedBy(c))
  }

  /** The results are the loaded listings with some dropped: none added, none reordered. */
  lemma ResultsAreSubsequence(books: seq<Listing>, c: Criteria)
    ensures IsSubsequence(SearchResults(books, c), books)
  {
    FilterIsSubsequence(books, SelectedBy(c));
  }

  /** A listing is shown exactly when it was loaded and passes every filter that is set. */
  lemma ResultsMembership(books: seq<Listing>, c: Criteria, b: Listing)
    ensures b in SearchResults(books, c) <==>
      && b in books
      && (c.searchTerm != "" ==> MatchesTerm(b, c.searchTerm))
      && (c.category != "" ==> b.category == c.category)
      && (c.condition != "" ==> b.condition == c.condition)
      && (c.listingType != "" ==> b.listingType == c.listingType)
  {
    FilterMembership(books, SelectedBy(c), b);
  }

  /** With an empty search box and every drop-down on "all", every loaded listing is shown. */
  lemma NoCriteriaShowsAll(books: seq<Listing>)
    ensures SearchResults(books, NoCriteria) == books
  {
    FilterAll(books, SelectedBy(NoCriteria));
  }

  /**
   * `narrow` keeps every filter of `wide` that is set, and may set more: the
   * user has only added filters.
   */
  predicate Narrows(narrow: Criteria, wide: Criteria) {
    && (wide.searchTerm == "" || narrow.searchTerm == wide.searchTerm)
    && (wide.category == "" || narrow.category == wide.category)
    && (wide.condition == "" || narrow.condition == wide.condition)
    && (wide.listingType == "" || narrow.listingType == wide.listingType)
  }

  /** Adding filters never enlarges the results and never reorders them. */
  lemma AddingFiltersNarrowsResults(books: seq<Listing>, narrow: Criteria, wide: Criteria)
    requires Narrows(narrow, wide)
    ensures IsSubsequence(SearchResults(books, narrow), SearchResults(books, wide))
  {
    FilterStricter(books, SelectedBy(narrow), SelectedBy(wide));
  }

  /** Two search terms that differ only in letter case show the same results. */
  lemma SearchIgnoresCase(books: seq<Listing>, c: Criteria, term: string)
    requires Lower(term) == Lower(c.searchTerm)
    ensures SearchResults(books, c.(searchTerm := term)) == SearchResults(books, c)
  {
    FilterExtensional(books, SelectedBy(c.(searchTerm := term)), SelectedBy(c));
  }

  /** A listing without a course code can match the search box only by its title or author. */
  lemma MissingCourseCodeMatchesByTitleOrAuthor(b: Listing, term: string)
    requires b.courseCode == None
    ensures MatchesTerm(b, term) <==>
      Contains(Lower(b.title), Lower(term)) || Contains(Lower(b.author), Lower(term))
  {
  }

  /** The card's price text. */
  function FormatPrice(price: Option<int>, listingType: string): string {
    if listingType == "free" then "Free"
    else if listingType == "exchange" then "Exchange"
    else if price.Some? && price.value != 0 then "$" + IntToString(price.value)
    else "Contact for price"
  }

  /** Free and exchange listings are labelled by their type, whatever their price. */
  lemma FreeAndExchangeIgnorePrice(p: Option<int>, q: Option<int>, listingType: string)
    requires listingType == "free" || listingType == "exchange"
    ensures FormatPrice(p, listingType) == FormatPrice(q, listingType)
    ensures FormatPrice(p, listingType) in {"Free", "Exchange"}
  {
  }

  /**
   * For any other type, "Contact for price" is shown exactly when the price is
   * missing or zero (both falsy), and otherwise the label is "$" and the price.
   */
  lemma ContactForPriceIffNoPrice(price: Option<int>, listingType: string)
    requires listingType != "free" && listingType != "exchange"
    ensures FormatPrice(price, listingType) == "Contact for price" <==> price == None || price == Some(0)
    ensures price.Some? && price.value != 0 ==> FormatPrice(price, listingType)[0] == '$'
  {
    if price.Some? && price.value != 0 {
      assert FormatPrice(price, listingType)[0] == '$' != "Contact for price"[0];
    }
  }

  /** Two priced listings for sale show the same label only if they have the same price. */
  lemma PriceLabelDeterminesPrice(p: int, q: int, listingType: string)
    requires listingType != "free" && listingType != "exchange" && p != 0 && q != 0
    requires FormatPrice(Some(p), listingType) == FormatPrice(Some(q), listingType)
    ensures p == q
  {
    var lp, lq := FormatPrice(Some(p), listingType), FormatPrice(Some(q), listingType);
    assert lp[1..] == IntToString(p) && lq[1..] == IntToString(q);
    IntToStringInjective(p, q);
  }

  /** The badge colour classes for a listing type. */
  function ListingTypeColor(listingType: string): string {
    match listingType
    case "sell" => "bg-green-100 text-green-800"
    case "exchange" => "bg-blue-100 text-blue-800"
    case "free" => "bg-purple-100 text-purple-800"
    case _ => "bg-gray-100 text-gray-800"
  }

  const ListingTypes: seq<string> := ["sell", "exchange", "free"]

  /** Each known listing type has its own colour, and every other type is grey. */
  lemma ListingTypeColorsDistinct(t: string, u: string)
    ensures t in ListingTypes && u in ListingTypes && t != u ==> ListingTypeColor(t) != ListingTypeColor(u)
    ensures t !in ListingTypes ==> ListingTypeColor(t) == "bg-gray-100 text-gray-800"
    ensures t in ListingTypes ==> ListingTypeColor(t) != "bg-gray-100 text-gray-800"
  {
  }

  /** The position of the first `c` in `s`, or `|s|` when there is none (`indexOf`). */
  function IndexOf(s: string, c: char): (k: nat)
    ensures k <= |s|
    ensures k < |s| ==> s[k] == c
    ensures forall i :: 0 <= i < k ==> s[i] != c
  {
    if s == [] then 0 else if s[0] == c then 0 else 1 + IndexOf(s[1..], c)
  }

  /** `s.replace(from, to)` with a one-character string pattern: only the first match is replaced. */
  function ReplaceFirst(s: string, from: char, to: char): (r: string)
    ensures |r| == |s|
  {
    if s == [] then [] else if s[0] == from then [to] + s[1..] else [s[0]] + ReplaceFirst(s[1..], from, to)
  }

  lemma {:induction false} ReplaceFirstAt(s: string, from: char, to: char)
    ensures ReplaceFirst(s, from, to) == if IndexOf(s, from) < |s| then s[IndexOf(s, from) := to] else s
  {
    if s != [] && s[0] != from {
      ReplaceFirstAt(s[1..], from, to);
      var k := IndexOf(s[1..], from);
      if k < |s| - 1 {
        assert [s[0]] + s[1..][k := to] == s[k + 1 := to];
      }
    }
  }

  /** The condition badge: first character upper-cased, first `-` after it turned into a space. */
  function ConditionLabel(condition: string): string {
    if condition == [] then [] else [UpperChar(condition[0])] + ReplaceFirst(condition[1..], '-', ' ')
  }

  /**
   * The label has the slug's length, its first character upper-cased, and
   * differs from the slug elsewhere only at the first `-` after position 0,
   * which becomes a space.
   */
  lemma ConditionLabelShape(condition: string)
    requires condition != []
    ensures var r := ConditionLabel(condition);
      var k := 1 + IndexOf(condition[1..], '-');
      && |r| == |condition|
      && r[0] == UpperChar(condition[0])
      && (forall i :: 1 <= i < |condition| && i != k ==> r[i] == condition[i])
      && (k < |condition| ==> r[k] == ' ')
  {
    ReplaceFirstAt(condition[1..], '-', ' ');
  }

  lemma ConditionLabelExamples()
    ensures ConditionLabel("like-new") == "Like new"
    ensures ConditionLabel("good") == "Good"
    ensures ConditionLabel("") == ""
  {
    assert ReplaceFirst("ike-new", '-', ' ') == "ike new" by {
      assert "ike-new"[1..] == "ke-new" && "ke-new"[1..] == "e-new" && "e-new"[1..] == "-new";
    }
    assert ReplaceFirst("ood", '-', ' ') == "ood" by {
      assert "ood"[1..] == "od" && "od"[1..] == "d" && "d"[1..] == "";
    }
  }

  /** The four tests `filterBooks` applies, one per filter. */
  function TermTest(term: string): Listing -> bool {
    b => MatchesTerm(b, term)
  }

  function CategoryTest(category: string): Listing -> bool {
    (b: Listing) => b.category == category
  }

  function ConditionTest(condition: string): Listing -> bool {
    (b: Listing) => b.condition == condition
  }

  function ListingTypeTest(listingType: string): Listing -> bool {
    (b: Listing) => b.listingType == listingType
  }

  /** Filtering the results of `before` by one more test gives the results of `after`. */
  lemma NarrowStep(books: seq<Listing>, before: Criteria, after: Criteria, test: Listing -> bool)
    requires forall b :: Selected(b, after) == (Selected(b, before) && test(b))
    ensures Filter(SearchResults(books, before), test) == SearchResults(books, after)
  {
    FilterChain(books, SelectedBy(before), test, SelectedBy(after));
  }

  /** The search page's state. */
  class SearchPage {
    var books: seq<Listing>
    var filteredBooks: seq<Listing>
    var searchTerm: string
    var categoryFilter: string
    var conditionFilter: string
    var listingTypeFilter: string
    var isLoading: bool

    function CurrentCriteria(): Criteria
      reads this
    {
      Criteria(searchTerm, categoryFilter, conditionFilter, listingTypeFilter)
    }

    /** The grid shows the results of the current filters over the loaded listings. */
    ghost predicate Valid()
      reads this
    {
      filteredBooks == SearchResults(books, CurrentCriteria())
    }

    /** Opening the page, optionally on a category chosen elsewhere (`""` when none). */
    constructor (selectedCategory: string)
      ensures Valid() && books == [] && filteredBooks == [] && isLoading
      ensures searchTerm == "" && categoryFilter == selectedCategory
      ensures conditionFilter == "" && listingTypeFilter == ""
    {
      books, filteredBooks := [], [];
      searchTerm, categoryFilter, conditionFilter, listingTypeFilter := "", selectedCategory, "", "";
      isLoading := true;
    }

    /**
     * `filterBooks`: narrows a working list one filter at a time, then
     * publishes it; the result is the conjunction of the filters that are set.
     */
    method FilterBooks()
      modifies this`filteredBooks
      ensures Valid()
    {
      var c := CurrentCriteria();
      // `applied` holds the filters used so far; the working list is always their results.
      ghost var applied := NoCriteria;
      NoCriteriaShowsAll(books);
      var filtered := books;
      if c.searchTerm != "" {
        NarrowStep(books, applied, applied.(searchTerm := c.searchTerm), TermTest(c.searchTerm));
        filtered, applied := Filter(filtered, TermTest(c.searchTerm)), applied.(searchTerm := c.searchTerm);
      }
      if c.category != "" {
        NarrowStep(books, applied, applied.(category := c.category), CategoryTest(c.category));
        filtered, applied := Filter(filtered, CategoryTest(c.category)), applied.(category := c.category);
      }
      if c.condition != "" {
        NarrowStep(books, applied, applied.(condition := c.condition), ConditionTest(c.condition));
        filtered, applied := Filter(filtered, ConditionTest(c.condition)), applied.(condition := c.condition);
      }
      if c.listingType != "" {
        NarrowStep(books, applied, applied.(listingType := c.listingType), ListingTypeTest(c.listingType));
        filtered, applied := Filter(filtered, ListingTypeTest(c.listingType)), applied.(listingType := c.listingType);
      }
      filteredBooks := filtered;
    }

    /** `fetchBooks` finished: the loaded rows on success; on failure the list is left as it was. */
    method FetchCompleted(result: Option<seq<Listing>>)
      modifies this
      ensures books == (if result.Some? then result.value else old(books))
      ensures !isLoading && Valid()
      ensures CurrentCriteria() == old(CurrentCriteria())
    {
      if result.Some? {
        books := result.value;
      }
      isLoading := false;
      FilterBooks();
    }

    /** Typing in the search box; the results follow. */
    method SetSearchTerm(term: string)
      modifies this
      ensures searchTerm == term && Valid()
      ensures books == old(books) && isLoading == old(isLoading)
      ensures categoryFilter == old(categoryFilter) && conditionFilter == old(conditionFilter)
      ensures listingTypeFilter == old(listingTypeFilter)
    {
      searchTerm := term;
      FilterBooks();
    }

    /** Choosing a category, condition or listing type in a drop-down (`""` is "all"). */
    method SetFilters(category: string, condition: string, listingType: string)
      modifies this
      ensures categoryFilter == category && conditionFilter == condition
      ensures listingTypeFilter == listingType && Valid()
      ensures books == old(books) && searchTerm == old(searchTerm) && isLoading == old(isLoading)
    {
      categoryFilter, conditionFilter, listingTypeFilter := category, condition, listingType;
      FilterBooks();
    }
  }
}
