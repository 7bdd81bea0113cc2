/**
 * The category browser (src/pages/Categories.tsx): a fixed table of
 * disciplines filtered by a search box, each card showing a few subcategories.
 */
module Categories {
  import opened Optional
  import opened Text
  import opened Seqs

  datatype Category = Category(name: string, count: nat, description: string, subcategories: seq<string>)

  const Table: seq<Category> := [
    Category("Engineering & Technology", 342,
      "Computer Science, Electrical, Mechanical, Civil Engineering",
      ["Computer Science", "Electrical Engineering", "Mechanical Engineering", "Civil Engineering", "Software Engineering"]),
    Category("Medical & Health Sciences", 198,
      "Medicine, Nursing, Pharmacy, Dentistry, Health Sciences",
      ["Medicine", "Nursing", "Pharmacy", "Dentistry", "Public Health"]),
    Category("Business & Economics", 267,
      "Business Administration, Economics, Finance, Marketing",
      ["Business Administration", "Economics", "Finance", "Marketing", "Accounting"]),
    Category("Natural Sciences", 189,
      "Physics, Chemistry, Biology, Mathematics, Environmental Science",
      ["Physics", "Chemistry", "Biology", "Mathematics", "Environmental Science"]),
    Category("Humanities & Literature", 156,
      "Literature, History, Philosophy, Languages, Arts",
      ["Literature", "History", "Philosophy", "Languages", "Fine Arts"]),
    Category("Social Sciences", 134,
      "Psychology, Sociology, Political Science, Anthropology",
      ["Psychology", "Sociology", "Political Science", "Anthropology", "Geography"]),
    Category("Law & Legal Studies", 89,
      "Constitutional Law, Criminal Law, Corporate Law, International Law",
      ["Constitutional Law", "Criminal Law", "Corporate Law", "International Law"]),
    Category("Education", 76,
      "Teaching Methods, Educational Psychology, Curriculum Development",
      ["Teaching Methods", "Educational Psychology", "Curriculum Development", "Special Education"])
  ]

  /** The search box's test on one category: its name or description includes the term, ignoring case. */
  predicate MatchesSearch(c: Category, term: string) {
    Contains(Lower(c.name), Lower(term)) || Contains(Lower(c.description), Lower(term))
  }

  function MatchesSearchBy(term: string): Category -> bool {
    c => MatchesSearch(c, term)
  }

  /** `filteredCategories` over any table. */
  function FilterCategories(table: seq<Category>, term: string): seq<Category> {
    Filter(table, MatchesSearchBy(term))
  }

  /** The cards shown for a search term. */
  function FilteredCategories(term: string): seq<Category> {
    FilterCategories(Table, term)
  }

  /**
   * The cards shown are table entries in table order, and an entry is shown
   * exactly when its name or description includes the term, ignoring case.
   */
  lemma FilteredIsOrderedSubset(term: string, c: Category)
    ensures IsSubsequence(FilteredCategories(term), Table)
    ensures c in FilteredCategories(term) <==>
      c in Table && (Contains(Lower(c.name), Lower(term)) || Contains(Lower(c.description), Lower(term)))
  {
    FilterIsSubsequence(Table, MatchesSearchBy(term));
    FilterMembership(Table, MatchesSearchBy(term), c);
  }

  /** An empty search box shows every category. */
  lemma EmptySearchShowsAll(table: seq<Category>)
    ensures FilterCategories(table, "") == table
  {
    forall c | c in table ensures MatchesSearch(c, "") {
      ContainsEmpty(Lower(c.name));
    }
    FilterAll(table, MatchesSearchBy(""));
  }

  /** The subcategory badges on a card: at most the first three. */
  function VisibleSubcategories(c: Category): (r: seq<string>)
    ensures |r| <= 3 && r <= c.subcategories
    ensures |r| == if |c.subcategories| < 3 then |c.subcategories| else 3
  {
    if |c.subcategories| <= 3 then c.subcategories else c.subcategories[..3]
  }

  /** The "+N more" badge: present only when some subcategories are hidden. */
  function MoreBadge(c: Category): Option<nat> {
    if |c.subcategories| > 3 then Some(|c.subcategories| - 3) else None
  }

  /** The visible badges and the "+N more" count together account for every subcategory. */
  lemma BadgesAccountForAll(c: Category)
    ensures MoreBadge(c).Some? <==> |VisibleSubcategories(c)| < |c.subcategories|
    ensures |VisibleSubcategories(c)| + (if MoreBadge(c).Some? then MoreBadge(c).value else 0) == |c.subcategories|
    ensures MoreBadge(c).Some? ==> MoreBadge(c).value >= 1
  {
  }

  /** The "No categories found" panel appears exactly when no card is shown. */
  predicate ShowsEmptyState(term: string) {
    |FilteredCategories(term)| == 0
  }

  /** The panel appears exactly when no category's name or description includes the term. */
  lemma EmptyStateIffNoMatch(term: string)
    ensures ShowsEmptyState(term) <==> forall c :: c in Table ==> !MatchesSearch(c, term)
  {
    if !ShowsEmptyState(term) {
      var c := FilteredCategories(term)[0];
      FilterMembership(Table, MatchesSearchBy(term), c);
    } else {
      forall c | c in Table ensures !MatchesSearch(c, term) {
        FilterMembership(Table, MatchesSearchBy(term), c);
      }
    }
  }

  /** The panel never appears for an empty search. */
  lemma EmptySearchHasNoEmptyState()
    ensures !ShowsEmptyState("")
  {
    EmptySearchShowsAll(Table);
  }
}
