/**
 * The shell app's public marketplace (`/courses`): it loads the approved
 * courses once, reshapes each row into the card's props, and filters them in
 * the browser by a search text (title or instructor, ignoring case), a
 * category and a level. The search text can arrive as the `q` parameter.
 */
module ShellMarketplace {
  import opened Common
  import opened CourseStore
  import Uri

  /** A `courses` row with its joined instructor name, category name and section lessons. */
  datatype CourseRow = CourseRow(
    course: Course,
    instructorName: Option<string>,
    categoryName: Option<string>,
    sections: Option<seq<SectionInfo>>)

  /** The props the marketplace hands to each card. */
  datatype CardCourse = CardCourse(
    id: string,
    title: string,
    instructor: string,
    price: int,
    rating: string,
    reviewsCount: nat,
    lessonsCount: nat,
    level: string,
    category: string,
    thumbnail: string)

  const UnknownInstructor := "Unknown Instructor"
  const GeneralCategory := "General"
  /** Rating and review count are fixed placeholders, not aggregates. */
  const MockRating := "4.8"
  const MockReviewsCount: nat := 120
  const DefaultThumbnail := "https://images.unsplash.com/photo-1627398242454-45a1465c2479?auto=format&fit=crop&q=80&w=800"
  const AllOption := "All"
  const CategoryOptions: seq<string> := ["All", "Development", "Design", "Data Science", "Marketing", "Business"]
  const LevelOptions: seq<string> := ["All", "Beginner", "Intermediate", "Advanced"]

  /** The per-row reshaping done after the fetch. */
  function ToCard(row: CourseRow): CardCourse {
    CardCourse(
      row.course.id,
      row.course.title,
      OrElse(row.instructorName, UnknownInstructor),
      row.course.price,
      MockRating,
      MockReviewsCount,
      TotalLessons(row.sections),
      row.course.level,
      OrElse(row.categoryName, GeneralCategory),
      OrElse(row.course.thumbnailUrl, DefaultThumbnail))
  }

  /** The card keeps the row's identity and fields and falls back to the defaults when a join or URL is empty. */
  lemma ToCardSpec(row: CourseRow)
    ensures var c := ToCard(row);
      && c.id == row.course.id && c.title == row.course.title
      && c.price == row.course.price && c.level == row.course.level
      && (Truthy(row.instructorName) ==> c.instructor == row.instructorName.value)
      && (!Truthy(row.instructorName) ==> c.instructor == UnknownInstructor)
      && (Truthy(row.categoryName) ==> c.category == row.categoryName.value)
      && (!Truthy(row.categoryName) ==> c.category == GeneralCategory)
      && (Truthy(row.course.thumbnailUrl) ==> c.thumbnail == row.course.thumbnailUrl.value)
      && (!Truthy(row.course.thumbnailUrl) ==> c.thumbnail == DefaultThumbnail)
      && c.lessonsCount == TotalLessons(row.sections)
      && c.rating == MockRating && c.reviewsCount == MockReviewsCount
  {
  }

  predicate IsApproved(row: CourseRow) {
    row.course.status == "approved"
  }

  /** `.eq('status', 'approved')` followed by the reshaping, in row order. */
  function Listing(rows: seq<CourseRow>): (cards: seq<CardCourse>) {
    var approved := Filter(rows, IsApproved);
    seq(|approved|, i requires 0 <= i < |approved| => ToCard(approved[i]))
  }

  /** Every listed card is the card of an approved row, and every approved row is listed. */
  lemma ListingSpec(rows: seq<CourseRow>)
    ensures forall c :: c in Listing(rows) ==> exists r :: r in rows && IsApproved(r) && c == ToCard(r)
    ensures forall r :: r in rows && IsApproved(r) ==> ToCard(r) in Listing(rows)
    ensures |Listing(rows)| <= |rows|
  {
    var approved := Filter(rows, IsApproved);
    FilterSpec(rows, IsApproved);
    var cards := Listing(rows);
    forall c | c in cards
      ensures exists r :: r in rows && IsApproved(r) && c == ToCard(r)
    {
      var i :| 0 <= i < |cards| && cards[i] == c;
      assert approved[i] in approved;
    }
    forall r | r in rows && IsApproved(r)
      ensures ToCard(r) in cards
    {
      assert r in approved;
      var i :| 0 <= i < |approved| && approved[i] == r;
      assert cards[i] == ToCard(r);
    }
  }

  /** `filteredCourses`' predicate. */
  predicate Matches(c: CardCourse, query: string, category: string, level: string) {
    && (IncludesIgnoringCase(c.title, query) || IncludesIgnoringCase(c.instructor, query))
    && (category == AllOption || c.category == category)
    && (level == AllOption || c.level == level)
  }

  function Filtered(courses: seq<CardCourse>, query: string, category: string, level: string): seq<CardCourse> {
    Filter(courses, (c: CardCourse) => Matches(c, query, category, level))
  }

  /** The shown cards are exactly the matching ones, in listing order. */
  lemma FilteredSpec(courses: seq<CardCourse>, query: string, category: string, level: string)
    ensures forall c :: c in Filtered(courses, query, category, level) <==>
      && c in courses
      && (IncludesIgnoringCase(c.title, query) || IncludesIgnoringCase(c.instructor, query))
      && (category == AllOption || c.category == category)
      && (level == AllOption || c.level == level)
    ensures IsSubsequence(Filtered(courses, query, category, level), courses)
  {
    FilterSpec(courses, (c: CardCourse) => Matches(c, query, category, level));
  }

  /** With an empty search and both selectors on "All", every listed course is shown. */
  lemma ClearedShowsAll(courses: seq<CardCourse>)
    ensures Filtered(courses, "", AllOption, AllOption) == courses
  {
    forall c | c in courses
      ensures Matches(c, "", AllOption, AllOption)
    {
      IncludesEmpty(Lower(c.title));
    }
    FilterAll(courses, (c: CardCourse) => Matches(c, "", AllOption, AllOption));
  }

  /** The `q` effect: once the router is ready, a truthy `q` replaces the search text. */
  function QueryFromUrl(isReady: bool, url: string, current: string): (query: string)
    ensures isReady && Truthy(Uri.SearchParam(url, "q")) ==> query == Uri.SearchParam(url, "q").value
    ensures !isReady || !Truthy(Uri.SearchParam(url, "q")) ==> query == current
  {
    var q := Uri.SearchParam(url, "q");
    if isReady && Truthy(q) then q.value else current
  }

  datatype State = State(
    courses: seq<CardCourse>,
    loading: bool,
    searchQuery: string,
    selectedCategory: string,
    selectedLevel: string,
    sidebarOpen: bool)

  class Marketplace {
    var courses: seq<CardCourse>
    var loading: bool
    var searchQuery: string
    var selectedCategory: string
    var selectedLevel: string
    var sidebarOpen: bool

    ghost function Snapshot(): State
      reads this
    {
      State(courses, loading, searchQuery, selectedCategory, selectedLevel, sidebarOpen)
    }

    /** The cards on screen. */
    function Shown(): seq<CardCourse>
      reads this
    {
      Filtered(courses, searchQuery, selectedCategory, selectedLevel)
    }

    constructor ()
      ensures Snapshot() == State([], true, "", AllOption, AllOption, false)
    {
      courses, loading, searchQuery := [], true, "";
      selectedCategory, selectedLevel, sidebarOpen := AllOption, AllOption, false;
    }

    /** `fetchCourses`: the listing replaces the cards; an error keeps the old ones; loading ends either way. */
    method FetchCourses(rows: seq<CourseRow>, refusal: Option<DbError>)
      modifies this
      ensures courses == if refusal.None? then Listing(rows) else old(courses)
      ensures !loading
      ensures searchQuery == old(searchQuery) && selectedCategory == old(selectedCategory)
      ensures selectedLevel == old(selectedLevel) && sidebarOpen == old(sidebarOpen)
    {
      loading := true;
      if refusal.None? {
        courses := Listing(rows);
      }
      loading := false;
    }

    method OnUrl(isReady: bool, url: string)
      modifies this
      ensures Snapshot() == old(Snapshot()).(searchQuery := QueryFromUrl(isReady, url, old(searchQuery)))
    {
      searchQuery := QueryFromUrl(isReady, url, searchQuery);
    }

    method SetSearchQuery(text: string)
      modifies this
      ensures Snapshot() == old(Snapshot()).(searchQuery := text)
    {
      searchQuery := text;
    }

    method SelectCategory(category: string)
      modifies this
      ensures Snapshot() == old(Snapshot()).(selectedCategory := category)
    {
      selectedCategory := category;
    }

    method SelectLevel(level: string)
      modifies this
      ensures Snapshot() == old(Snapshot()).(selectedLevel := level)
    {
      selectedLevel := level;
    }

    method SetSidebarOpen(open: bool)
      modifies this
      ensures Snapshot() == old(Snapshot()).(sidebarOpen := open)
    {
      sidebarOpen := open;
    }

    /** "Clear All Filters": empty search, both selectors back to "All", so every loaded course is shown. */
    method ClearAll()
      modifies this
      ensures Snapshot() == old(Snapshot()).(searchQuery := "", selectedCategory := AllOption, selectedLevel := AllOption)
      ensures Shown() == courses
    {
      searchQuery, selectedCategory, selectedLevel := "", AllOption, AllOption;
      ClearedShowsAll(courses);
    }
  }
}
