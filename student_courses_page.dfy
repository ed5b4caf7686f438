/**
 * The student catalogue page: the filter map kept in the URL query, the
 * search submit, clearing, and the server-side first render.
 */
module StudentCoursesPage {
  import opened Common
  import opened CourseStore
  import opened CourseApi

  /** The URL query / filter object: parameter name to value. */
  type Filters = map<string, string>

  /** `{...filters, [key]: value}`, then `delete` the key when the value is falsy. */
  function UpdateFilter(filters: Filters, key: string, value: string): Filters {
    if value == "" then filters - {key} else filters[key := value]
  }

  /**
   * The key gets the value, or is removed when the value is empty; every other
   * key keeps its value; setting the same value again changes nothing.
   */
  lemma UpdateFilterSpec(filters: Filters, key: string, value: string)
    ensures var r := UpdateFilter(filters, key, value);
      && (value != "" ==> key in r && r[key] == value)
      && (value == "" ==> key !in r)
      && (forall k :: k != key ==> (k in r <==> k in filters) && (k in filters ==> r[k] == filters[k]))
      && UpdateFilter(r, key, value) == r
  {
  }

  /** The navigation `updateFilter` makes: the same path with the new map as its query. */
  datatype Push = Push(pathname: string, query: Filters)

  function FilterNavigation(filters: Filters, key: string, value: string): (nav: Push)
    ensures nav.pathname == "/student/courses" && nav.query == UpdateFilter(filters, key, value)
  {
    Push("/student/courses", UpdateFilter(filters, key, value))
  }

  /** `handleSearch`: the search box's text becomes `q`. */
  function HandleSearch(filters: Filters, searchQuery: string): (r: Filters)
    ensures searchQuery != "" ==> "q" in r && r["q"] == searchQuery
    ensures searchQuery == "" ==> "q" !in r
    ensures forall k :: k != "q" ==> (k in r <==> k in filters) && (k in filters ==> r[k] == filters[k])
  {
    UpdateFilterSpec(filters, "q", searchQuery);
    UpdateFilter(filters, "q", searchQuery)
  }

  /** "Clear all filters": the empty map. */
  const Cleared: Filters := map[]

  function Lookup(filters: Filters, key: string): Option<string> {
    if key in filters then Some(filters[key]) else None
  }

  /** The client-side fetch effect's options: `q` as the query, and the three filters. */
  function ClientArgs(filters: Filters): SearchArgs {
    SearchArgs(Lookup(filters, "q"), Lookup(filters, "category"), Lookup(filters, "level"), Lookup(filters, "price"), None)
  }

  function ClientCourses(table: seq<Course>, filters: Filters): seq<Course> {
    SearchCourses(table, ClientArgs(filters))
  }

  /** `getServerSideProps`' normalisation: each filter's value when truthy, else null. */
  datatype SsrFilters = SsrFilters(q: Option<string>, category: Option<string>, level: Option<string>, price: Option<string>)

  function Normalised(filters: Filters, key: string): (o: Option<string>)
    ensures o.Some? <==> key in filters && filters[key] != ""
    ensures o.Some? ==> o.value == filters[key]
  {
    if key in filters && filters[key] != "" then Some(filters[key]) else None
  }

  function NormaliseQuery(query: Filters): SsrFilters {
    SsrFilters(Normalised(query, "q"), Normalised(query, "category"), Normalised(query, "level"), Normalised(query, "price"))
  }

  /**
   * The server-side first render as written: the object passed has a `q` key,
   * but `searchCourses` reads `query`, so the text search is dropped.
   * `queryFails` says that `searchCourses` or `getCategories` rejected: the
   * `Promise.all` then rejects and the `catch` renders no course.
   */
  function ServerCourses(table: seq<Course>, query: Filters, queryFails: bool): seq<Course> {
    var f := NormaliseQuery(query);
    if queryFails then [] else SearchCourses(table, SearchArgs(None, f.category, f.level, f.price, None))
  }

  /** The server-side first render with `q` passed as the `query` option. */
  function ServerCoursesCorrected(table: seq<Course>, query: Filters, queryFails: bool): seq<Course> {
    var f := NormaliseQuery(query);
    if queryFails then [] else SearchCourses(table, SearchArgs(f.q, f.category, f.level, f.price, None))
  }

  /**
   * The client-side fetch effect: the listing becomes the search's answer, or,
   * when the search throws, the `catch` only logs and the listing is kept.
   */
  function ClientFetched(courses: seq<Course>, table: seq<Course>, filters: Filters, fetchFails: bool): (r: seq<Course>)
    ensures fetchFails ==> r == courses
    ensures !fetchFails ==> forall c :: c in r ==> c in table && c.status == "approved"
  {
    SearchCoursesSpec(table, ClientArgs(filters));
    if fetchFails then courses else ClientCourses(table, filters)
  }

  /**
   * A concrete page `?q=x` over one approved course titled "Go": the server
   * lists it although it does not match, and the listing stays on screen
   * when the client fetch then fails; a client fetch that succeeds drops it.
   */
  lemma ServerIgnoresQ()
    ensures var go := Course("c1", "Go", None, "i1", "approved", false, None, None, None, "beginner", 0, None, None);
      && ServerCourses([go], map["q" := "x"], false) == [go]
      && ServerCoursesCorrected([go], map["q" := "x"], false) == []
      && ClientFetched(ServerCourses([go], map["q" := "x"], false), [go], map["q" := "x"], true) == [go]
      && ClientFetched(ServerCourses([go], map["q" := "x"], false), [go], map["q" := "x"], false) == []
  {
    var go := Course("c1", "Go", None, "i1", "approved", false, None, None, None, "beginner", 0, None, None);
    assert Lower("Go") == "go";
    assert Lower("x") == "x";
    assert "go"[1..][1..] == "";
    assert !Includes("", "x");
    assert "go"[1..] == "o" && "o"[0] != "x"[0];
    assert !Includes("o", "x");
    assert "go"[0] != "x"[0];
    assert !Includes("go", "x");
    assert !Matches(go, SearchArgs(Some("x"), None, None, None, None));
    assert Matches(go, SearchArgs(None, None, None, None, None));
  }

  /**
   * With the correction, the first render lists exactly what the client-side
   * fetch lists for the same URL query (normalising empty values to null
   * changes nothing), so after both the page shows that listing unless both
   * failed, in which case it shows no course.
   */
  lemma CorrectedServerMatchesClient(table: seq<Course>, query: Filters, serverFails: bool, clientFails: bool)
    ensures ServerCoursesCorrected(table, query, false) == ClientCourses(table, query)
    ensures ClientFetched(ServerCoursesCorrected(table, query, serverFails), table, query, clientFails)
         == if serverFails && clientFails then [] else ClientCourses(table, query)
  {
    var f := NormaliseQuery(query);
    SameOptionsSameSearch(table, SearchArgs(f.q, f.category, f.level, f.price, None), ClientArgs(query));
  }

  /** A submitted search reaches the client fetch as its title filter. */
  lemma SearchSubmitFilters(table: seq<Course>, filters: Filters, text: string)
    requires text != ""
    ensures ClientArgs(HandleSearch(filters, text)).query == Some(text)
    ensures forall c :: c in ClientCourses(table, HandleSearch(filters, text)) ==> IncludesIgnoringCase(c.title, text)
  {
    SearchCoursesSpec(table, ClientArgs(HandleSearch(filters, text)));
  }
}
