/**
 * The instructor's three-step course wizard: basic info, a curriculum of
 * sections each holding lessons, and a review step whose submit inserts the
 * course as `pending`, then each section and each of its lessons with 1-based
 * `order` values, stopping at the first failed insert without undoing the
 * inserts before it.
 */
module CourseWizard {
  import opened Common
  import AuthTypes
  import InstructorCoursesPage

  datatype Lesson = Lesson(title: string, videoUrl: string, duration: string, isFree: bool)
  datatype Section = Section(title: string, lessons: seq<Lesson>)

  /** The course fields of step one; `price` is a whole number. */
  datatype CourseDraft = CourseDraft(
    title: string, description: string, categoryId: string, level: string, price: int, thumbnailUrl: string)

  const BlankLesson := Lesson("", "", "", false)
  const BlankSection := Section("", [BlankLesson])
  const EmptyDraft := CourseDraft("", "", "", "Beginner", 0, "")
  const Steps: seq<string> := ["Basic Info", "Curriculum", "Review & Submit"]
  const LastStep: nat := 2

  // ---------------------------------------------------------------------------
  // Curriculum editing
  // ---------------------------------------------------------------------------

  /** The number of lessons over all sections (the review step's total). */
  function LessonTotal(ss: seq<Section>): nat
    decreases |ss|
  {
    if ss == [] then 0 else LessonTotal(ss[..|ss| - 1]) + |ss[|ss| - 1].lessons|
  }

  lemma {:induction false} LessonTotalAppend(a: seq<Section>, b: seq<Section>)
    ensures LessonTotal(a + b) == LessonTotal(a) + LessonTotal(b)
    decreases |b|
  {
    if b == [] {
      assert a + b == a;
    } else {
      assert (a + b)[..|a + b| - 1] == a + b[..|b| - 1];
      LessonTotalAppend(a, b[..|b| - 1]);
    }
  }

  /** `xs.filter((_, idx) => idx !== k)`: drops the element at `k`, if there is one. */
  function RemoveIndex<T>(xs: seq<T>, k: int): (r: seq<T>)
    ensures 0 <= k < |xs| ==> |r| == |xs| - 1 && r == xs[..k] + xs[k + 1..]
    ensures !(0 <= k < |xs|) ==> r == xs
  {
    if 0 <= k < |xs| then xs[..k] + xs[k + 1..] else xs
  }

  function AddSection(ss: seq<Section>): seq<Section> {
    ss + [BlankSection]
  }

  function RemoveSection(ss: seq<Section>, k: int): seq<Section> {
    RemoveIndex(ss, k)
  }

  function AddLesson(ss: seq<Section>, k: nat): seq<Section>
    requires k < |ss|
  {
    ss[k := ss[k].(lessons := ss[k].lessons + [BlankLesson])]
  }

  function RemoveLesson(ss: seq<Section>, k: nat, j: int): seq<Section>
    requires k < |ss|
  {
    ss[k := ss[k].(lessons := RemoveIndex(ss[k].lessons, j))]
  }

  function SetSectionTitle(ss: seq<Section>, k: nat, title: string): seq<Section>
    requires k < |ss|
  {
    ss[k := ss[k].(title := title)]
  }

  /** `handleLessonChange`'s four fields. */
  datatype LessonEdit = SetTitle(title: string) | SetVideoUrl(url: string) | SetDuration(duration: string) | SetIsFree(isFree: bool)

  function ApplyLessonEdit(l: Lesson, e: LessonEdit): Lesson {
    match e
      case SetTitle(t) => l.(title := t)
      case SetVideoUrl(u) => l.(videoUrl := u)
      case SetDuration(d) => l.(duration := d)
      case SetIsFree(b) => l.(isFree := b)
  }

  function EditLesson(ss: seq<Section>, k: nat, j: nat, e: LessonEdit): seq<Section>
    requires k < |ss| && j < |ss[k].lessons|
  {
    ss[k := ss[k].(lessons := ss[k].lessons[j := ApplyLessonEdit(ss[k].lessons[j], e)])]
  }

  lemma SingleSectionTotal(s: Section)
    ensures LessonTotal([s]) == |s.lessons|
  {
    assert [s][..0] == [];
  }

  /** Replacing one section changes the total by the difference of its lesson counts. */
  lemma {:induction false} LessonTotalUpdate(ss: seq<Section>, k: nat, s: Section)
    requires k < |ss|
    ensures LessonTotal(ss[k := s]) == LessonTotal(ss) - |ss[k].lessons| + |s.lessons|
  {
    assert ss == ss[..k] + [ss[k]] + ss[k + 1..];
    assert ss[k := s] == ss[..k] + [s] + ss[k + 1..];
    LessonTotalAppend(ss[..k] + [ss[k]], ss[k + 1..]);
    LessonTotalAppend(ss[..k], [ss[k]]);
    LessonTotalAppend(ss[..k] + [s], ss[k + 1..]);
    LessonTotalAppend(ss[..k], [s]);
    SingleSectionTotal(ss[k]);
    SingleSectionTotal(s);
  }

  /** A new section brings one blank lesson to the review total. */
  lemma AddSectionTotal(ss: seq<Section>)
    ensures |AddSection(ss)| == |ss| + 1 && AddSection(ss)[..|ss|] == ss
    ensures LessonTotal(AddSection(ss)) == LessonTotal(ss) + 1
  {
    LessonTotalAppend(ss, [BlankSection]);
    SingleSectionTotal(BlankSection);
  }

  /** A removed section takes its lessons with it; a missing index changes nothing. */
  lemma RemoveSectionTotal(ss: seq<Section>, k: int)
    ensures 0 <= k < |ss| ==> LessonTotal(RemoveSection(ss, k)) == LessonTotal(ss) - |ss[k].lessons|
    ensures !(0 <= k < |ss|) ==> RemoveSection(ss, k) == ss
  {
    if 0 <= k < |ss| {
      assert ss == ss[..k] + [ss[k]] + ss[k + 1..];
      LessonTotalAppend(ss[..k] + [ss[k]], ss[k + 1..]);
      LessonTotalAppend(ss[..k], [ss[k]]);
      LessonTotalAppend(ss[..k], ss[k + 1..]);
      SingleSectionTotal(ss[k]);
    }
  }

  /** A lesson is added at the end of its section, and the total grows by one. */
  lemma AddLessonTotal(ss: seq<Section>, k: nat)
    requires k < |ss|
    ensures LessonTotal(AddLesson(ss, k)) == LessonTotal(ss) + 1
    ensures AddLesson(ss, k)[k].lessons == ss[k].lessons + [BlankLesson]
    ensures forall i :: 0 <= i < |ss| && i != k ==> AddLesson(ss, k)[i] == ss[i]
  {
    LessonTotalUpdate(ss, k, ss[k].(lessons := ss[k].lessons + [BlankLesson]));
  }

  /** Removing an existing lesson lowers the total by one; a missing index changes nothing. */
  lemma RemoveLessonTotal(ss: seq<Section>, k: nat, j: int)
    requires k < |ss|
    ensures 0 <= j < |ss[k].lessons| ==> LessonTotal(RemoveLesson(ss, k, j)) == LessonTotal(ss) - 1
    ensures !(0 <= j < |ss[k].lessons|) ==> RemoveLesson(ss, k, j) == ss
    ensures forall i :: 0 <= i < |ss| && i != k ==> RemoveLesson(ss, k, j)[i] == ss[i]
  {
    LessonTotalUpdate(ss, k, ss[k].(lessons := RemoveIndex(ss[k].lessons, j)));
  }

  /** A field edit changes that field of the addressed section or lesson and nothing else. */
  lemma EditsTouchOneEntry(ss: seq<Section>, k: nat, j: nat, title: string, e: LessonEdit)
    requires k < |ss|
    ensures SetSectionTitle(ss, k, title)[k] == Section(title, ss[k].lessons)
    ensures forall i :: 0 <= i < |ss| && i != k ==> SetSectionTitle(ss, k, title)[i] == ss[i]
    ensures j < |ss[k].lessons| ==>
      && LessonTotal(EditLesson(ss, k, j, e)) == LessonTotal(ss)
      && EditLesson(ss, k, j, e)[k].title == ss[k].title
      && EditLesson(ss, k, j, e)[k].lessons[j] == ApplyLessonEdit(ss[k].lessons[j], e)
      && forall m :: 0 <= m < |ss[k].lessons| && m != j ==> EditLesson(ss, k, j, e)[k].lessons[m] == ss[k].lessons[m]
  {
    if j < |ss[k].lessons| {
      LessonTotalUpdate(ss, k, ss[k].(lessons := ss[k].lessons[j := ApplyLessonEdit(ss[k].lessons[j], e)]));
    }
  }

  // ---------------------------------------------------------------------------
  // Step navigation
  // ---------------------------------------------------------------------------

  /** "Next" is offered before the last step only, "Back" after the first only. */
  function Next(step: nat): (r: nat)
    ensures step < LastStep ==> r == step + 1
    ensures step >= LastStep ==> r == step
  {
    if step < LastStep then step + 1 else step
  }

  function Back(step: nat): (r: nat)
    ensures step > 0 ==> r == step - 1
    ensures step == 0 ==> r == 0
  {
    if step > 0 then step - 1 else step
  }

  /** Starting at step 0, any sequence of Next and Back stays within the three steps. */
  lemma StepsStayInRange(step: nat)
    requires step <= LastStep
    ensures Next(step) <= LastStep && Back(step) <= LastStep
    ensures Next(step) < |Steps| && Back(step) < |Steps|
  {
  }

  // ---------------------------------------------------------------------------
  // Submit
  // ---------------------------------------------------------------------------

  datatype CourseRow = CourseRow(draft: CourseDraft, instructorId: string, status: string)
  /** A section row; its id is its position in the table. */
  datatype SectionRow = SectionRow(courseId: nat, title: string, order: nat)
  datatype LessonRow = LessonRow(sectionId: nat, lesson: Lesson, order: nat)

  /** The section rows for `ss`, numbered from 1. */
  function SectionRowsFor(courseId: nat, ss: seq<Section>): seq<SectionRow> {
    seq(|ss|, i requires 0 <= i < |ss| => SectionRow(courseId, ss[i].title, i + 1))
  }

  /** The lesson rows of one section, numbered from 1. */
  function LessonRowsOf(sectionId: nat, ls: seq<Lesson>): seq<LessonRow> {
    seq(|ls|, j requires 0 <= j < |ls| => LessonRow(sectionId, ls[j], j + 1))
  }

  /** The lesson rows of all sections, section `i` having id `base + i`. */
  function LessonRowsFor(base: nat, ss: seq<Section>): seq<LessonRow>
    decreases |ss|
  {
    if ss == [] then []
    else LessonRowsFor(base, ss[..|ss| - 1]) + LessonRowsOf(base + |ss| - 1, ss[|ss| - 1].lessons)
  }

  /** One section's rows: one per lesson, each with its 1-based position. */
  lemma LessonRowsOfSpec(sectionId: nat, ls: seq<Lesson>)
    ensures |LessonRowsOf(sectionId, ls)| == |ls|
    ensures forall r :: r in LessonRowsOf(sectionId, ls) ==>
      r.sectionId == sectionId && 1 <= r.order <= |ls| && ls[r.order - 1] == r.lesson
  {
    forall r | r in LessonRowsOf(sectionId, ls)
      ensures r.sectionId == sectionId && 1 <= r.order <= |ls| && ls[r.order - 1] == r.lesson
    {
      var j :| 0 <= j < |ls| && LessonRowsOf(sectionId, ls)[j] == r;
    }
  }

  /** All rows for the curriculum: one per lesson, each pointing at its section's id with its 1-based position. */
  lemma {:induction false} LessonRowsForSpec(base: nat, ss: seq<Section>)
    ensures |LessonRowsFor(base, ss)| == LessonTotal(ss)
    ensures forall r :: r in LessonRowsFor(base, ss) ==>
      && base <= r.sectionId < base + |ss|
      && 1 <= r.order <= |ss[r.sectionId - base].lessons|
      && ss[r.sectionId - base].lessons[r.order - 1] == r.lesson
    decreases |ss|
  {
    if ss != [] {
      var init := ss[..|ss| - 1];
      var last := ss[|ss| - 1];
      LessonRowsForSpec(base, init);
      LessonRowsOfSpec(base + |ss| - 1, last.lessons);
      var head := LessonRowsFor(base, init);
      var tail := LessonRowsOf(base + |ss| - 1, last.lessons);
      assert LessonRowsFor(base, ss) == head + tail;
      assert forall r :: r in head ==> ss[r.sectionId - base] == init[r.sectionId - base];
    }
  }

  /** Where the first failing insert is: the course, section `i`, or lesson `j` of section `i`. */
  datatype FailPoint = AtCourse | AtSection(i: nat) | AtLesson(i: nat, j: nat)

  /** The failure is reached: it names an insert the submit actually performs. */
  predicate Hits(failure: Option<FailPoint>, ss: seq<Section>) {
    match failure
      case None => false
      case Some(AtCourse) => true
      case Some(AtSection(i)) => i < |ss|
      case Some(AtLesson(i, j)) => i < |ss| && j < |ss[i].lessons|
  }

  /** The sections written: all of them, or those before the failing insert. */
  function SectionsWritten(courseId: nat, ss: seq<Section>, failure: Option<FailPoint>): seq<SectionRow> {
    if !Hits(failure, ss) then SectionRowsFor(courseId, ss)
    else match failure.value
      case AtCourse => []
      case AtSection(i) => SectionRowsFor(courseId, ss[..i])
      case AtLesson(i, _) => SectionRowsFor(courseId, ss[..i + 1])
  }

  /** The lessons written: all of them, or those before the failing insert. */
  function LessonsWritten(base: nat, ss: seq<Section>, failure: Option<FailPoint>): seq<LessonRow> {
    if !Hits(failure, ss) then LessonRowsFor(base, ss)
    else match failure.value
      case AtCourse => []
      case AtSection(i) => LessonRowsFor(base, ss[..i])
      case AtLesson(i, j) =>
        assert i < |ss|;
        LessonRowsFor(base, ss[..i]) + LessonRowsOf(base + i, ss[i].lessons[..j])
  }

  lemma SectionRowsStep(courseId: nat, ss: seq<Section>, i: nat)
    requires i < |ss|
    ensures SectionRowsFor(courseId, ss[..i + 1]) == SectionRowsFor(courseId, ss[..i]) + [SectionRow(courseId, ss[i].title, i + 1)]
  {
  }

  lemma LessonRowsStep(base: nat, ss: seq<Section>, i: nat)
    requires i < |ss|
    ensures LessonRowsFor(base, ss[..i + 1]) == LessonRowsFor(base, ss[..i]) + LessonRowsOf(base + i, ss[i].lessons)
  {
    assert ss[..i + 1][..i] == ss[..i];
  }

  lemma LessonRowsOfStep(sectionId: nat, ls: seq<Lesson>, j: nat)
    requires j < |ls|
    ensures LessonRowsOf(sectionId, ls[..j + 1]) == LessonRowsOf(sectionId, ls[..j]) + [LessonRow(sectionId, ls[j], j + 1)]
  {
  }

  /** A successful submit writes one row per section and per lesson; the first failure leaves a prefix of them. */
  lemma WrittenSpec(courseId: nat, base: nat, ss: seq<Section>, failure: Option<FailPoint>)
    ensures !Hits(failure, ss) ==>
      && |SectionsWritten(courseId, ss, failure)| == |ss|
      && |LessonsWritten(base, ss, failure)| == LessonTotal(ss)
    ensures forall k :: 0 <= k < |SectionsWritten(courseId, ss, failure)| ==>
      SectionsWritten(courseId, ss, failure)[k] == SectionRow(courseId, ss[k].title, k + 1)
    ensures |SectionsWritten(courseId, ss, failure)| <= |ss|
    ensures failure == Some(AtCourse) ==> SectionsWritten(courseId, ss, failure) == [] && LessonsWritten(base, ss, failure) == []
  {
    LessonRowsForSpec(base, ss);
  }

  /** The failing insert is lesson `j < n` of section `i`. */
  predicate LessonFails(failure: Option<FailPoint>, i: nat, n: nat) {
    failure.Some? && failure.value.AtLesson? && failure.value.i == i && failure.value.j < n
  }

  /** A refused section insert: the rows before section `i` are written. */
  lemma FailsAtSection(courseId: nat, base: nat, ss: seq<Section>, i: nat, failure: Option<FailPoint>)
    requires i < |ss| && failure == Some(AtSection(i))
    ensures Hits(failure, ss)
    ensures SectionsWritten(courseId, ss, failure) == SectionRowsFor(courseId, ss[..i])
    ensures LessonsWritten(base, ss, failure) == LessonRowsFor(base, ss[..i])
  {
  }

  /** A refused lesson insert: section `i` is written, with its lessons before `j`. */
  lemma FailsAtLesson(courseId: nat, base: nat, ss: seq<Section>, i: nat, j: nat, failure: Option<FailPoint>)
    requires i < |ss| && j < |ss[i].lessons| && failure == Some(AtLesson(i, j))
    ensures Hits(failure, ss)
    ensures SectionsWritten(courseId, ss, failure) == SectionRowsFor(courseId, ss[..i + 1])
    ensures LessonsWritten(base, ss, failure) == LessonRowsFor(base, ss[..i]) + LessonRowsOf(base + i, ss[i].lessons[..j])
  {
  }

  /** No insert of the curriculum refused: every row is written. */
  lemma NoFailureHit(courseId: nat, base: nat, ss: seq<Section>, failure: Option<FailPoint>)
    requires failure != Some(AtCourse)
    requires forall k :: 0 <= k < |ss| ==> failure != Some(AtSection(k))
    requires forall k, j :: 0 <= k < |ss| && 0 <= j < |ss[k].lessons| ==> failure != Some(AtLesson(k, j))
    ensures !Hits(failure, ss)
    ensures SectionsWritten(courseId, ss, failure) == SectionRowsFor(courseId, ss)
    ensures LessonsWritten(base, ss, failure) == LessonRowsFor(base, ss)
  {
    if failure.Some? && failure.value.AtSection? {
      assert failure == Some(AtSection(failure.value.i));
    }
    if failure.Some? && failure.value.AtLesson? {
      assert failure == Some(AtLesson(failure.value.i, failure.value.j));
    }
  }

  datatype SubmitResult = SubmitResult(alertText: string, navigate: Option<string>)

  function SubmitMessage(failure: Option<FailPoint>, ss: seq<Section>, message: string): SubmitResult {
    if Hits(failure, ss) then SubmitResult("Error creating course: " + message, None)
    else SubmitResult("Course submitted for approval!", Some("/instructor/courses"))
  }

  /** The course, section and lesson tables the submit writes to; ids are row positions. */
  class CurriculumTables {
    var courses: seq<CourseRow>
    var sections: seq<SectionRow>
    var lessons: seq<LessonRow>

    constructor ()
      ensures courses == [] && sections == [] && lessons == []
    {
      courses, sections, lessons := [], [], [];
    }

    /** An insert that answers with the new row's id, or with the error `refusal`. */
    method InsertCourse(row: CourseRow, refusal: Option<string>) returns (id: Option<nat>)
      modifies this
      ensures refusal.Some? ==> id.None? && courses == old(courses)
      ensures refusal.None? ==> id == Some(|old(courses)|) && courses == old(courses) + [row]
      ensures sections == old(sections) && lessons == old(lessons)
    {
      if refusal.Some? {
        return None;
      }
      id := Some(|courses|);
      courses := courses + [row];
    }

    method InsertSection(row: SectionRow, refusal: Option<string>) returns (id: Option<nat>)
      modifies this
      ensures refusal.Some? ==> id.None? && sections == old(sections)
      ensures refusal.None? ==> id == Some(|old(sections)|) && sections == old(sections) + [row]
      ensures courses == old(courses) && lessons == old(lessons)
    {
      if refusal.Some? {
        return None;
      }
      id := Some(|sections|);
      sections := sections + [row];
    }

    method InsertLesson(row: LessonRow, refusal: Option<string>) returns (ok: bool)
      modifies this
      ensures ok <==> refusal.None?
      ensures lessons == if ok then old(lessons) + [row] else old(lessons)
      ensures courses == old(courses) && sections == old(sections)
    {
      ok := refusal.None?;
      if ok {
        lessons := lessons + [row];
      }
    }

    /**
     * The inner loop of the submit: the lessons of section `i` go in under
     * `sectionId` with orders `1..n`, until the first refused insert.
     */
    method InsertLessons(sectionId: nat, i: nat, ls: seq<Lesson>, failure: Option<FailPoint>, message: string)
      returns (failed: bool)
      modifies this
      ensures failed <==> LessonFails(failure, i, |ls|)
      ensures courses == old(courses) && sections == old(sections)
      ensures lessons == old(lessons) + LessonRowsOf(sectionId, if failed then ls[..failure.value.j] else ls)
    {
      var j := 0;
      while j < |ls|
        invariant 0 <= j <= |ls|
        invariant forall m :: 0 <= m < j ==> failure != Some(AtLesson(i, m))
        invariant courses == old(courses) && sections == old(sections)
        invariant lessons == old(lessons) + LessonRowsOf(sectionId, ls[..j])
      {
        var ok := InsertLesson(
          LessonRow(sectionId, ls[j], j + 1),
          if failure == Some(AtLesson(i, j)) then Some(message) else None);
        if !ok {
          return true;
        }
        LessonRowsOfStep(sectionId, ls, j);
        j := j + 1;
      }
      assert ls[..j] == ls;
      return false;
    }

    /**
     * The loop over the curriculum: section `i` goes in with order `i + 1`
     * under course `courseId`, then its lessons with orders `1..n` under the
     * new section's id. The first refused insert ends the loop.
     */
    method InsertCurriculum(courseId: nat, ss: seq<Section>, failure: Option<FailPoint>, message: string)
      returns (failed: bool)
      requires failure != Some(AtCourse)
      modifies this
      ensures failed == Hits(failure, ss)
      ensures courses == old(courses)
      ensures sections == old(sections) + SectionsWritten(courseId, ss, failure)
      ensures lessons == old(lessons) + LessonsWritten(|old(sections)|, ss, failure)
    {
      var base := |sections|;
      var i := 0;
      while i < |ss|
        invariant 0 <= i <= |ss|
        invariant forall k :: 0 <= k < i ==> failure != Some(AtSection(k))
        invariant forall k, j :: 0 <= k < i && 0 <= j < |ss[k].lessons| ==> failure != Some(AtLesson(k, j))
        invariant courses == old(courses)
        invariant sections == old(sections) + SectionRowsFor(courseId, ss[..i])
        invariant lessons == old(lessons) + LessonRowsFor(base, ss[..i])
      {
        var sectionId := InsertSection(
          SectionRow(courseId, ss[i].title, i + 1),
          if failure == Some(AtSection(i)) then Some(message) else None);
        if sectionId.None? {
          FailsAtSection(courseId, base, ss, i, failure);
          return true;
        }
        SectionRowsStep(courseId, ss, i);
        var lessonFailed := InsertLessons(sectionId.value, i, ss[i].lessons, failure, message);
        if lessonFailed {
          FailsAtLesson(courseId, base, ss, i, failure.value.j, failure);
          return true;
        }
        LessonRowsStep(base, ss, i);
        i := i + 1;
      }
      assert ss[..i] == ss;
      NoFailureHit(courseId, base, ss, failure);
      return false;
    }
  }

  class Wizard {
    var currentStep: nat
    var submitting: bool
    var categories: seq<string>
    var courseData: CourseDraft
    var sections: seq<Section>

    ghost predicate Valid()
      reads this
    {
      currentStep <= LastStep
    }

    constructor ()
      ensures Valid() && currentStep == 0 && !submitting && categories == []
      ensures courseData == EmptyDraft && sections == [BlankSection]
    {
      currentStep, submitting, categories := 0, false, [];
      courseData, sections := EmptyDraft, [BlankSection];
    }

    /** `fetchCategories`: the rows, or an empty list when the query gave none. */
    method FetchCategories(data: Option<seq<string>>)
      modifies this
      ensures categories == if data.Some? then data.value else []
      ensures currentStep == old(currentStep) && submitting == old(submitting)
      ensures courseData == old(courseData) && sections == old(sections)
    {
      categories := if data.Some? then data.value else [];
    }

    /**
     * The page's auth effect, the gate shared with the other instructor pages:
     * a redirect to `/login`, or for a signed-in user the category fetch, whose
     * rows (`data`, null when the query gave none) replace the list.
     */
    method OnAuth(loading: bool, user: Option<AuthTypes.AuthUser>, role: Option<string>, data: Option<seq<string>>)
      returns (e: InstructorCoursesPage.GateEffect)
      modifies this
      ensures e == InstructorCoursesPage.PageEffect(loading, user, role)
      ensures e.Load? ==> categories == if data.Some? then data.value else []
      ensures !e.Load? ==> categories == old(categories)
      ensures currentStep == old(currentStep) && submitting == old(submitting)
      ensures courseData == old(courseData) && sections == old(sections)
    {
      e := InstructorCoursesPage.PageEffect(loading, user, role);
      if e.Load? {
        FetchCategories(data);
      }
    }

    method SetCourseData(draft: CourseDraft)
      modifies this
      ensures courseData == draft
      ensures currentStep == old(currentStep) && submitting == old(submitting)
      ensures categories == old(categories) && sections == old(sections)
    {
      courseData := draft;
    }

    method GoNext()
      requires Valid()
      modifies this
      ensures Valid() && currentStep == Next(old(currentStep))
      ensures submitting == old(submitting) && categories == old(categories)
      ensures courseData == old(courseData) && sections == old(sections)
    {
      currentStep := Next(currentStep);
    }

    method GoBack()
      requires Valid()
      modifies this
      ensures Valid() && currentStep == Back(old(currentStep))
      ensures submitting == old(submitting) && categories == old(categories)
      ensures courseData == old(courseData) && sections == old(sections)
    {
      currentStep := Back(currentStep);
    }

    method HandleAddSection()
      modifies this
      ensures sections == AddSection(old(sections))
      ensures currentStep == old(currentStep) && submitting == old(submitting)
      ensures categories == old(categories) && courseData == old(courseData)
    {
      sections := AddSection(sections);
    }

    method HandleRemoveSection(k: int)
      modifies this
      ensures sections == RemoveSection(old(sections), k)
      ensures currentStep == old(currentStep) && submitting == old(submitting)
      ensures categories == old(categories) && courseData == old(courseData)
    {
      sections := RemoveSection(sections, k);
    }

    method HandleAddLesson(k: nat)
      requires k < |sections|
      modifies this
      ensures sections == AddLesson(old(sections), k)
      ensures currentStep == old(currentStep) && submitting == old(submitting)
      ensures categories == old(categories) && courseData == old(courseData)
    {
      sections := AddLesson(sections, k);
    }

    method HandleRemoveLesson(k: nat, j: int)
      requires k < |sections|
      modifies this
      ensures sections == RemoveLesson(old(sections), k, j)
      ensures currentStep == old(currentStep) && submitting == old(submitting)
      ensures categories == old(categories) && courseData == old(courseData)
    {
      sections := RemoveLesson(sections, k, j);
    }

    method HandleSectionChange(k: nat, title: string)
      requires k < |sections|
      modifies this
      ensures sections == SetSectionTitle(old(sections), k, title)
      ensures currentStep == old(currentStep) && submitting == old(submitting)
      ensures categories == old(categories) && courseData == old(courseData)
    {
      sections := SetSectionTitle(sections, k, title);
    }

    method HandleLessonChange(k: nat, j: nat, e: LessonEdit)
      requires k < |sections| && j < |sections[k].lessons|
      modifies this
      ensures sections == EditLesson(old(sections), k, j, e)
      ensures currentStep == old(currentStep) && submitting == old(submitting)
      ensures categories == old(categories) && courseData == old(courseData)
    {
      sections := EditLesson(sections, k, j, e);
    }

    /**
     * `handleSubmit` for the signed-in instructor `instructorId`: the course goes
     * in as `pending`, then its curriculum. `failure` names the first insert the
     * database refuses (with `message`); everything inserted before it stays.
     */
    method HandleSubmit(tables: CurriculumTables, instructorId: string, failure: Option<FailPoint>, message: string)
      returns (result: SubmitResult)
      modifies this, tables
      ensures result == SubmitMessage(failure, old(sections), message)
      ensures !submitting
      ensures currentStep == old(currentStep) && categories == old(categories)
      ensures courseData == old(courseData) && sections == old(sections)
      ensures failure == Some(AtCourse) ==> tables.courses == old(tables.courses)
      ensures failure != Some(AtCourse) ==>
        tables.courses == old(tables.courses) + [CourseRow(courseData, instructorId, "pending")]
      ensures tables.sections ==
        old(tables.sections) + SectionsWritten(|old(tables.courses)|, old(sections), failure)
      ensures tables.lessons ==
        old(tables.lessons) + LessonsWritten(|old(tables.sections)|, old(sections), failure)
    {
      submitting := true;
      var courseId := tables.InsertCourse(
        CourseRow(courseData, instructorId, "pending"),
        if failure == Some(AtCourse) then Some(message) else None);
      if courseId.Some? {
        var _ := tables.InsertCurriculum(courseId.value, sections, failure, message);
      }
      submitting := false;
      result := SubmitMessage(failure, sections, message);
    }
  }
}
