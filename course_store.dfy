/**
 * The `courses` and `course_approval_logs` tables as the dashboards see them.
 * Statuses are the strings the front ends compare against: `draft`, `pending`,
 * `approved`, `rejected`. Prices are modelled as whole numbers.
 */
module CourseStore {
  import opened Common

  datatype Course = Course(
    id: string,
    title: string,
    description: Option<string>,
    instructorId: string,
    status: string,
    isDeleted: bool,
    approvedBy: Option<string>,
    approvedAt: Option<string>,
    categoryId: Option<string>,
    level: string,
    price: int,
    thumbnailUrl: Option<string>,
    promoVideoUrl: Option<string>)

  datatype ApprovalLog = ApprovalLog(courseId: string, adminId: string, statusAfter: string, reason: string)

  datatype DbError = DbError(message: string)

  ghost predicate UniqueIds(cs: seq<Course>) {
    forall i, j :: 0 <= i < j < |cs| ==> cs[i].id != cs[j].id
  }

  /** `update(f).eq('id', id)`: every row with that id is replaced by `f` of itself, the others are kept. */
  function UpdateWhere(cs: seq<Course>, id: string, f: Course -> Course): (r: seq<Course>)
    ensures |r| == |cs|
    ensures forall i :: 0 <= i < |cs| ==> r[i] == if cs[i].id == id then f(cs[i]) else cs[i]
  {
    seq(|cs|, i requires 0 <= i < |cs| => if cs[i].id == id then f(cs[i]) else cs[i])
  }

  /** An update that keeps ids keeps ids unique. */
  lemma UpdateKeepsUnique(cs: seq<Course>, id: string, f: Course -> Course)
    requires UniqueIds(cs)
    requires forall c :: f(c).id == c.id
    ensures UniqueIds(UpdateWhere(cs, id, f))
  {
    var r := UpdateWhere(cs, id, f);
    forall i, j | 0 <= i < j < |r| ensures r[i].id != r[j].id {
      assert r[i].id == cs[i].id && r[j].id == cs[j].id;
    }
  }

  function SetStatus(cs: seq<Course>, id: string, status: string): seq<Course> {
    UpdateWhere(cs, id, (c: Course) => c.(status := status))
  }

  /** A status update changes the status of the addressed course and no other field of any course. */
  lemma SetStatusSpec(cs: seq<Course>, id: string, status: string)
    ensures |SetStatus(cs, id, status)| == |cs|
    ensures forall i :: 0 <= i < |cs| ==>
      SetStatus(cs, id, status)[i] == if cs[i].id == id then cs[i].(status := status) else cs[i]
    ensures forall i :: 0 <= i < |cs| && cs[i].id == id ==> SetStatus(cs, id, status)[i].status == status
  {
  }

  /** `course_sections(course_lessons(id))`: a section's lesson list may be missing. */
  datatype SectionInfo = SectionInfo(lessons: Option<seq<string>>)

  function LessonCount(s: SectionInfo): nat {
    if s.lessons.Some? then |s.lessons.value| else 0
  }

  function LessonCounts(sections: seq<SectionInfo>): nat
    decreases |sections|
  {
    if sections == [] then 0 else LessonCount(sections[0]) + LessonCounts(sections[1..])
  }

  /** `course_sections?.reduce((acc, s) => acc + (s.course_lessons?.length || 0), 0) || 0`. */
  function TotalLessons(sections: Option<seq<SectionInfo>>): (n: nat)
    ensures sections.None? || sections.value == [] ==> n == 0
  {
    if sections.Some? then LessonCounts(sections.value) else 0
  }

  /** The total over sections is the sum of the parts. */
  lemma {:induction false} LessonCountsAppend(a: seq<SectionInfo>, b: seq<SectionInfo>)
    ensures LessonCounts(a + b) == LessonCounts(a) + LessonCounts(b)
    decreases |a|
  {
    if a != [] {
      assert (a + b)[1..] == a[1..] + b;
      LessonCountsAppend(a[1..], b);
    } else {
      assert a + b == b;
    }
  }

  class CourseTable {
    var courses: seq<Course>
    var logs: seq<ApprovalLog>

    ghost predicate Valid()
      reads this
    {
      UniqueIds(courses)
    }

    constructor (initial: seq<Course>)
      requires UniqueIds(initial)
      ensures Valid() && courses == initial && logs == []
    {
      courses, logs := initial, [];
    }

    /** An update of the rows with id `id`, or `refusal` and no change. */
    method Update(id: string, f: Course -> Course, refusal: Option<DbError>) returns (err: Option<DbError>)
      requires Valid()
      requires forall c :: f(c).id == c.id
      modifies this
      ensures Valid() && err == refusal && logs == old(logs)
      ensures courses == if refusal.None? then UpdateWhere(old(courses), id, f) else old(courses)
    {
      err := refusal;
      if refusal.None? {
        UpdateKeepsUnique(courses, id, f);
        courses := UpdateWhere(courses, id, f);
      }
    }

    /** `insert` into `course_approval_logs`. */
    method AppendLog(entry: ApprovalLog, refusal: Option<DbError>) returns (err: Option<DbError>)
      requires Valid()
      modifies this
      ensures Valid() && err == refusal && courses == old(courses)
      ensures logs == if refusal.None? then old(logs) + [entry] else old(logs)
    {
      err := refusal;
      if refusal.None? {
        logs := logs + [entry];
      }
    }
  }
}
