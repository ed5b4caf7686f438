/**
 * The student app's course service: the catalogue search with its optional
 * filters and limit, the trending list, and the single-course lookup.
 */
module CourseApi {
  import opened Common
  import opened CourseStore

  /** The options object of `searchCourses`; `None` is an absent (undefined or null) key. */
  datatype SearchArgs = SearchArgs(
    query: Option<string>, category: Option<string>, level: Option<string>, price: Option<string>, limit: Option<nat>)

  const DefaultSearchLimit: nat := 12
  const TrendingLimit: nat := 4

  /** `limit = 12`: the default applies when the key is absent. */
  function LimitOf(a: SearchArgs): nat {
    if a.limit.Some? then a.limit.value else DefaultSearchLimit
  }

  /** The price clause: `free` is price 0, `paid` a positive price, anything else no constraint. */
  predicate PriceMatches(c: Course, price: Option<string>) {
    if price == Some("free") then c.price == 0
    else if price == Some("paid") then c.price > 0
    else true
  }

  /**
   * The conjunction the query builder accumulates: approved, and each truthy
   * option constrains its column (`ilike` on the title as a case-insensitive
   * substring test).
   */
  predicate Matches(c: Course, a: SearchArgs) {
    && c.status == "approved"
    && (Truthy(a.query) ==> IncludesIgnoringCase(c.title, a.query.value))
    && (Truthy(a.category) ==> c.categoryId == a.category)
    && (Truthy(a.level) ==> c.level == a.level.value)
    && PriceMatches(c, a.price)
  }

  /** `searchCourses(args)` against the table in the database's row order. */
  function SearchCourses(table: seq<Course>, a: SearchArgs): seq<Course> {
    Take(Filter(table, (c: Course) => Matches(c, a)), LimitOf(a))
  }

  /**
   * The results are approved courses satisfying every given option, in table
   * order, at most the limit; when no more than the limit match, all of them
   * are returned.
   */
  lemma SearchCoursesSpec(table: seq<Course>, a: SearchArgs)
    ensures var r := SearchCourses(table, a);
      && |r| <= LimitOf(a)
      && IsSubsequence(r, table)
      && (forall c :: c in r ==> c in table && Matches(c, a) && c.status == "approved")
      && (|Filter(table, (c: Course) => Matches(c, a))| <= LimitOf(a) ==>
            forall c :: c in table && Matches(c, a) ==> c in r)
  {
    var all := Filter(table, (c: Course) => Matches(c, a));
    FilterSpec(table, (c: Course) => Matches(c, a));
    var r := SearchCourses(table, a);
    forall c | c in r ensures c in all {
      var i :| 0 <= i < |r| && r[i] == c;
      assert all[i] == c;
    }
    PrefixSubsequence(r, all);
    SubsequenceTrans(r, all, table);
  }

  /** Options that agree on truthiness and value give the same search. */
  lemma SameOptionsSameSearch(table: seq<Course>, a: SearchArgs, b: SearchArgs)
    requires Truthy(a.query) == Truthy(b.query) && (Truthy(a.query) ==> a.query == b.query)
    requires Truthy(a.category) == Truthy(b.category) && (Truthy(a.category) ==> a.category == b.category)
    requires Truthy(a.level) == Truthy(b.level) && (Truthy(a.level) ==> a.level == b.level)
    requires a.price == b.price || (a.price != Some("free") && a.price != Some("paid") && b.price != Some("free") && b.price != Some("paid"))
    requires LimitOf(a) == LimitOf(b)
    ensures SearchCourses(table, a) == SearchCourses(table, b)
  {
    FilterExtensional(table, (c: Course) => Matches(c, a), (c: Course) => Matches(c, b));
  }

  /** `getTrendingCourses(limit = 4)`: approved courses, at most the limit. */
  function TrendingCourses(table: seq<Course>, limit: Option<nat>): seq<Course> {
    Take(Filter(table, (c: Course) => c.status == "approved"), if limit.Some? then limit.value else TrendingLimit)
  }

  /**
   * The trending list holds approved courses only, in table order, at most the
   * limit (4 when none is given), and every approved course when there are no
   * more of them than that.
   */
  lemma TrendingSpec(table: seq<Course>, limit: Option<nat>)
    ensures var r := TrendingCourses(table, limit);
      && |r| <= (if limit.Some? then limit.value else TrendingLimit)
      && IsSubsequence(r, table)
      && (forall c :: c in r ==> c.status == "approved")
      && (|Filter(table, (c: Course) => c.status == "approved")| <= (if limit.Some? then limit.value else TrendingLimit) ==>
            forall c :: c in table && c.status == "approved" ==> c in r)
  {
    var approved := Filter(table, (c: Course) => c.status == "approved");
    FilterSpec(table, (c: Course) => c.status == "approved");
    var r := TrendingCourses(table, limit);
    forall c | c in r ensures c in approved {
      var i :| 0 <= i < |r| && r[i] == c;
      assert approved[i] == c;
    }
    PrefixSubsequence(r, approved);
    SubsequenceTrans(r, approved, table);
  }

  /** The answer of `getCourseById`. */
  datatype Lookup = Found(course: Course) | NotFound | Failed(message: string)

  const ConfigErrorMessage: string := "Database configuration error."

  /**
   * `getCourseById(id)`: a configuration error when the client has no URL or
   * key, the query's error, else the first row with that id or null.
   */
  function GetCourseById(table: seq<Course>, id: string, configured: bool, refusal: Option<string>): (r: Lookup)
    ensures !configured ==> r == Failed(ConfigErrorMessage)
    ensures configured && refusal.Some? ==> r == Failed(refusal.value)
    ensures configured && refusal.None? ==> (r.NotFound? <==> forall c :: c in table ==> c.id != id)
    ensures r.Found? ==> r.course in table && r.course.id == id
  {
    if !configured then Failed(ConfigErrorMessage)
    else if refusal.Some? then Failed(refusal.value)
    else
      var rows := Filter(table, (c: Course) => c.id == id);
      FilterSpec(table, (c: Course) => c.id == id);
      if |rows| > 0 then
        assert rows[0] in rows;
        Found(rows[0])
      else NotFound
  }

  /** With unique ids, the lookup finds the one course with that id. */
  lemma LookupFindsTheCourse(table: seq<Course>, k: nat)
    requires UniqueIds(table) && k < |table|
    ensures GetCourseById(table, table[k].id, true, None) == Found(table[k])
  {
    var id := table[k].id;
    var rows := Filter(table, (c: Course) => c.id == id);
    FilterSpec(table, (c: Course) => c.id == id);
    assert table[k] in rows;
    assert rows[0] in table;
    var j :| 0 <= j < |table| && table[j] == rows[0];
    assert table[j].id == id;
  }
}
