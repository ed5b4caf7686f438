/**
 * The curriculum editor component: it adds a section under a non-blank title
 * with the next free 0-based `order`, expands one section at a time, and
 * prepares a new lesson whose `order` is the section's current lesson count.
 * Saving goes through the callbacks it is given; their effect is the request
 * they receive.
 */
module SectionBuilder {
  import opened Common
  import CourseWizard

  /** A section as the component receives it. */
  datatype SectionView = SectionView(id: string, lessons: Option<seq<string>>)

  datatype SectionRequest = SectionRequest(courseId: string, title: string, order: nat)
  datatype DraftLesson = DraftLesson(title: string, videoUrl: string, isFree: bool, order: nat)
  datatype LessonRequest = LessonRequest(lesson: DraftLesson, sectionId: string)
  datatype EditingLesson = EditingLesson(sectionId: string, lesson: DraftLesson)

  /** `handleAddSection`'s request: none for a blank title; otherwise the untrimmed title at order `|sections|`. */
  function AddSectionRequest(sections: seq<SectionView>, courseId: string, title: string): (r: Option<SectionRequest>)
    ensures r.None? <==> Trim(title) == ""
    ensures r.Some? ==> r.value.title == title && r.value.courseId == courseId
  {
    if Trim(title) == "" then None else Some(SectionRequest(courseId, title, |sections|))
  }

  /** Sections added one after another get orders 0, 1, 2, ...: each new one is numbered after those shown. */
  lemma AddedSectionsCountFromZero(sections: seq<SectionView>, courseId: string, title: string, next: SectionView)
    requires Trim(title) != ""
    ensures AddSectionRequest([], courseId, title).value.order == 0
    ensures AddSectionRequest(sections + [next], courseId, title).value.order ==
      AddSectionRequest(sections, courseId, title).value.order + 1
  {
  }

  /**
   * The wizard numbers sections from 1, this component from 0: a course created
   * with one section and then extended here has two sections with order 1.
   */
  lemma OrdersDisagreeWithWizard(courseId: nat, s: CourseWizard.Section, view: SectionView)
    requires Trim(s.title) != ""
    ensures CourseWizard.SectionRowsFor(courseId, [s])[0].order == 1
    ensures AddSectionRequest([view], "c", s.title).value.order == 1
  {
  }

  /** The toggle: a click collapses the open section or opens another one, so at most one is open. */
  function Toggle(active: Option<string>, id: string): (r: Option<string>)
    ensures r == Some(id) <==> active != Some(id)
    ensures r.Some? ==> r.value == id
  {
    if active == Some(id) then None else Some(id)
  }

  lemma ToggleTwiceRestores(id: string)
    ensures Toggle(Toggle(None, id), id).None?
    ensures Toggle(Toggle(Some(id), id), id) == Some(id)
  {
  }

  /** "Add Lesson": an empty lesson whose order is the section's lesson count (0 without a lesson list). */
  function NewLessonDraft(s: SectionView): (e: EditingLesson)
    ensures e.sectionId == s.id
    ensures e.lesson.title == "" && e.lesson.videoUrl == "" && !e.lesson.isFree
    ensures e.lesson.order == if s.lessons.Some? then |s.lessons.value| else 0
  {
    EditingLesson(s.id, DraftLesson("", "", false, if s.lessons.Some? then |s.lessons.value| else 0))
  }

  class Builder {
    var activeSectionId: Option<string>
    var newSectionTitle: string
    var isAddingSection: bool
    var editingLesson: Option<EditingLesson>

    constructor ()
      ensures activeSectionId.None? && newSectionTitle == "" && !isAddingSection && editingLesson.None?
    {
      activeSectionId, newSectionTitle, isAddingSection, editingLesson := None, "", false, None;
    }

    method StartAddingSection(open: bool)
      modifies this
      ensures isAddingSection == open
      ensures activeSectionId == old(activeSectionId) && newSectionTitle == old(newSectionTitle)
      ensures editingLesson == old(editingLesson)
    {
      isAddingSection := open;
    }

    method SetNewSectionTitle(title: string)
      modifies this
      ensures newSectionTitle == title
      ensures activeSectionId == old(activeSectionId) && isAddingSection == old(isAddingSection)
      ensures editingLesson == old(editingLesson)
    {
      newSectionTitle := title;
    }

    /**
     * `handleAddSection`: a blank title sends nothing; otherwise the request is
     * sent and, unless saving raised (`saveFails`), the input is cleared and closed.
     */
    method HandleAddSection(sections: seq<SectionView>, courseId: string, saveFails: bool)
      returns (sent: Option<SectionRequest>)
      modifies this
      ensures sent == AddSectionRequest(sections, courseId, old(newSectionTitle))
      ensures sent.Some? && !saveFails ==> newSectionTitle == "" && !isAddingSection
      ensures sent.None? || saveFails ==> newSectionTitle == old(newSectionTitle) && isAddingSection == old(isAddingSection)
      ensures activeSectionId == old(activeSectionId) && editingLesson == old(editingLesson)
    {
      sent := AddSectionRequest(sections, courseId, newSectionTitle);
      if sent.Some? && !saveFails {
        newSectionTitle := "";
        isAddingSection := false;
      }
    }

    method ToggleSection(id: string)
      modifies this
      ensures activeSectionId == Toggle(old(activeSectionId), id)
      ensures newSectionTitle == old(newSectionTitle) && isAddingSection == old(isAddingSection)
      ensures editingLesson == old(editingLesson)
    {
      activeSectionId := Toggle(activeSectionId, id);
    }

    method StartLesson(s: SectionView)
      modifies this
      ensures editingLesson == Some(NewLessonDraft(s))
      ensures activeSectionId == old(activeSectionId) && newSectionTitle == old(newSectionTitle)
      ensures isAddingSection == old(isAddingSection)
    {
      editingLesson := Some(NewLessonDraft(s));
    }

    /** A field edit in the lesson dialog keeps its section and order. */
    method EditLessonDraft(title: string, videoUrl: string, isFree: bool)
      requires editingLesson.Some?
      modifies this
      ensures editingLesson == Some(old(editingLesson.value).(lesson := old(editingLesson.value.lesson).(title := title, videoUrl := videoUrl, isFree := isFree)))
      ensures activeSectionId == old(activeSectionId) && newSectionTitle == old(newSectionTitle)
      ensures isAddingSection == old(isAddingSection)
    {
      var e := editingLesson.value;
      editingLesson := Some(e.(lesson := e.lesson.(title := title, videoUrl := videoUrl, isFree := isFree)));
    }

    /** "Save Lesson": the draft goes out with its section id; unless saving raised, the dialog closes. */
    method SaveLesson(saveFails: bool) returns (sent: LessonRequest)
      requires editingLesson.Some?
      modifies this
      ensures sent == LessonRequest(old(editingLesson.value.lesson), old(editingLesson.value.sectionId))
      ensures editingLesson == if saveFails then old(editingLesson) else None
      ensures activeSectionId == old(activeSectionId) && newSectionTitle == old(newSectionTitle)
      ensures isAddingSection == old(isAddingSection)
    {
      sent := LessonRequest(editingLesson.value.lesson, editingLesson.value.sectionId);
      if !saveFails {
        editingLesson := None;
      }
    }

    method CancelLesson()
      modifies this
      ensures editingLesson.None?
      ensures activeSectionId == old(activeSectionId) && newSectionTitle == old(newSectionTitle)
      ensures isAddingSection == old(isAddingSection)
    {
      editingLesson := None;
    }
  }
}
