/** app/forms/new/page.tsx: the form builder page. Its React state (the form
    being built, the active question, the two drag indices) is the state of
    the class NewFormEditor; each handler is a method. The question-list
    transforms inside the handlers are the functions before the class. */
module NewFormPage {
  import opened Common
  import opened FormTypes
  import Store
  import FormTemplates

  /** A fresh question of the given kind, as `addQuestion(type)` builds it:
      empty title, not required, and the kind's defaults. */
  function NewQuestion(qtype: QuestionType, id: string): (q: Question)
    ensures q.id == id && q.qtype == qtype && q.title == "" && !q.required
    ensures q.scaleMin == (if qtype == LinearScale then Some(1) else None)
    ensures q.scaleMax == (if qtype == LinearScale then Some(5) else None)
    ensures q.rows == (if qtype == Grid then Some(["Row 1"]) else None)
    ensures q.columns == (if qtype == Grid then Some(["Column 1"]) else None)
    ensures q.options == (if qtype in {MultipleChoice, Checkbox, Dropdown} then Some(["Option 1"]) else None)
    ensures q.description.None? && q.minLabel.None? && q.maxLabel.None? && q.validation.None?
    ensures q.conditionalLogic.None? && q.points.None?
  {
    var newQuestion := Question(id := id, qtype := qtype, title := "", required := false);
    if qtype == LinearScale then newQuestion.(scaleMin := Some(1), scaleMax := Some(5))
    else if qtype == Grid then newQuestion.(rows := Some(["Row 1"]), columns := Some(["Column 1"]))
    else if qtype == MultipleChoice || qtype == Checkbox || qtype == Dropdown then
      newQuestion.(options := Some(["Option 1"]))
    else newQuestion
  }

  /** `questions.map((q) => (q.id === id ? { ...q, ...data } : q))`. */
  function UpdatedQuestions(qs: seq<Question>, id: string, patch: QuestionPatch): (r: seq<Question>)
    ensures |r| == |qs|
    ensures forall i :: 0 <= i < |qs| && qs[i].id != id ==> r[i] == qs[i]
    ensures forall i :: 0 <= i < |qs| && qs[i].id == id ==> r[i] == MergeQuestion(qs[i], patch)
  {
    seq(|qs|, i requires 0 <= i < |qs| => if qs[i].id == id then MergeQuestion(qs[i], patch) else qs[i])
  }

  /** An update for an id no question has changes nothing. */
  lemma UpdateAbsentQuestion(qs: seq<Question>, id: string, patch: QuestionPatch)
    requires id !in QuestionIds(qs)
    ensures UpdatedQuestions(qs, id, patch) == qs
  {
    var r := UpdatedQuestions(qs, id, patch);
    forall i | 0 <= i < |qs| ensures r[i] == qs[i] {
      assert QuestionIds(qs)[i] == qs[i].id;
    }
  }

  /** With unique ids, an update changes exactly the one question with that id. */
  lemma UpdateUniqueQuestion(qs: seq<Question>, k: nat, patch: QuestionPatch)
    requires Distinct(QuestionIds(qs)) && k < |qs|
    ensures UpdatedQuestions(qs, qs[k].id, patch) == qs[k := MergeQuestion(qs[k], patch)]
  {
    var r := UpdatedQuestions(qs, qs[k].id, patch);
    forall i | 0 <= i < |qs| && i != k ensures r[i] == qs[i] {
      assert QuestionIds(qs)[i] != QuestionIds(qs)[k];
    }
  }

  /** `questions.filter((q) => q.id !== id)`. */
  function WithoutQuestion(qs: seq<Question>, id: string): (r: seq<Question>)
    ensures id !in QuestionIds(r)
    ensures forall i :: 0 <= i < |r| ==> r[i] in qs
    ensures forall i :: 0 <= i < |qs| && qs[i].id != id ==> qs[i] in r
  {
    var r := Filter(qs, (q: Question) => q.id != id);
    assert forall i :: 0 <= i < |r| ==> QuestionIds(r)[i] != id;
    r
  }

  /** With unique ids, removing a question deletes exactly its position;
      the others keep their order. */
  lemma WithoutQuestionRemovesAt(qs: seq<Question>, k: nat)
    requires Distinct(QuestionIds(qs)) && k < |qs|
    ensures WithoutQuestion(qs, qs[k].id) == RemoveAt(qs, k)
  {
    var id := qs[k].id;
    assert forall j :: 0 <= j < |qs| && j != k ==> QuestionIds(qs)[j] != QuestionIds(qs)[k];
    FilterDropsOne(qs, (q: Question) => q.id != id, k);
  }

  /** A template question as the template-load effect stores it: `required`
      defaults to false and a missing title to "". */
  function NormalizeQuestion(tq: FormTemplates.TemplateQuestion): (q: Question)
    ensures q.id == tq.id && q.qtype == tq.qtype
    ensures q.title == tq.title.GetOr("") && q.required == tq.required.GetOr(false)
    ensures q.options == tq.options && q.rows == tq.rows && q.columns == tq.columns
    ensures q.scaleMin == tq.scaleMin && q.scaleMax == tq.scaleMax
    ensures q.minLabel == tq.minLabel && q.maxLabel == tq.maxLabel
    ensures q.description.None? && q.validation.None? && q.conditionalLogic.None? && q.points.None?
  {
    Question(tq.id, tq.qtype, tq.title.GetOr(""), None, tq.required.GetOr(false), tq.options, tq.rows,
             tq.columns, tq.scaleMin, tq.scaleMax, tq.minLabel, tq.maxLabel, None, None, None)
  }

  /** `template.questions.map(...)` of the template-load effect. */
  function NormalizeQuestions(tqs: seq<FormTemplates.TemplateQuestion>): (qs: seq<Question>)
    ensures |qs| == |tqs|
    ensures forall i :: 0 <= i < |tqs| ==> qs[i] == NormalizeQuestion(tqs[i])
    ensures QuestionIds(qs) == FormTemplates.TemplateQuestionIds(tqs)
  {
    seq(|tqs|, i requires 0 <= i < |tqs| => NormalizeQuestion(tqs[i]))
  }

  /** `if (templateId)`: the query parameter is present and not the empty string. */
  predicate HasTemplateId(templateId: Option<string>) {
    templateId.Some? && templateId.value != ""
  }

  /** The first half of the load effect: copy a template's name, description
      and questions when the query names one that has questions. */
  function WithTemplate(form: Form, templateId: Option<string>): (r: Form)
    ensures r.(title := form.title, description := form.description, questions := form.questions) == form
    ensures !HasTemplateId(templateId) ==> r == form
    ensures HasTemplateId(templateId) ==>
              var t := FormTemplates.GetTemplateById(templateId.value);
              if |t.questions| == 0 then r == form
              else r.title == t.name && r.description == t.description &&
                   r.questions == NormalizeQuestions(t.questions)
  {
    if HasTemplateId(templateId) then
      var template := FormTemplates.GetTemplateById(templateId.value);
      if |template.questions| > 0 then
        form.(title := template.name, description := template.description,
              questions := NormalizeQuestions(template.questions))
      else form
    else form
  }

  /** A template id that names no template leaves the form untouched, because
      the lookup falls back to the blank template, which has no questions. */
  lemma UnknownTemplateLeavesForm(form: Form, templateId: string)
    requires templateId !in FormTemplates.TemplateIds(FormTemplates.FormTemplatesTable)
    ensures WithTemplate(form, Some(templateId)) == form
  {
    FormTemplates.FallbackIsBlank();
  }

  /** A loaded template's questions have pairwise different ids. */
  lemma LoadedTemplateIdsDistinct(form: Form, templateId: Option<string>)
    requires Distinct(QuestionIds(form.questions))
    ensures Distinct(QuestionIds(WithTemplate(form, templateId).questions))
  {
    if HasTemplateId(templateId) {
      var t := FormTemplates.GetTemplateById(templateId.value);
      FormTemplates.TemplateQuestionsWellFormed();
      var k :| 0 <= k < |FormTemplates.FormTemplatesTable| && FormTemplates.FormTemplatesTable[k] == t;
      assert Distinct(FormTemplates.TemplateQuestionIds(FormTemplates.FormTemplatesTable[k].questions));
    }
  }

  /** The second half of the load effect: record the signed-in user's id. */
  function WithCurrentUser(form: Form, currentUser: Option<User>): (r: Form)
    ensures currentUser.None? ==> r == form
    ensures currentUser.Some? ==> r == form.(userId := Some(currentUser.value.id))
  {
    if currentUser.Some? then form.(userId := Some(currentUser.value.id)) else form
  }

  class NewFormEditor {
    var form: Form
    var activeQuestionId: Option<string>
    var draggedQuestionIndex: Option<nat>
    var dropTargetIndex: Option<nat>

    /** The page's initial state, with the uuid and `Date.now()` passed in. */
    constructor (freshId: string, now: int)
      ensures form == Form(id := freshId, title := "Untitled Form", description := "", questions := [],
                           createdAt := now, theme := "default", headerImage := None)
      ensures activeQuestionId == None && draggedQuestionIndex == None && dropTargetIndex == None
    {
      form := Form(id := freshId, title := "Untitled Form", description := "", questions := [],
                   createdAt := now, theme := "default", headerImage := None);
      activeQuestionId := None;
      draggedQuestionIndex := None;
      dropTargetIndex := None;
    }

    /** The mount effect: load the template named by the query, then record
      the current user (both passed in). */
    method LoadEffect(templateId: Option<string>, currentUser: Option<User>)
      modifies this
      ensures form == WithCurrentUser(WithTemplate(old(form), templateId), currentUser)
      ensures activeQuestionId == old(activeQuestionId)
      ensures draggedQuestionIndex == old(draggedQuestionIndex) && dropTargetIndex == old(dropTargetIndex)
    {
      if HasTemplateId(templateId) {
        var template := FormTemplates.GetTemplateById(templateId.value);
        if |template.questions| > 0 {
          form := form.(title := template.name, description := template.description,
                        questions := NormalizeQuestions(template.questions));
        }
      }
      if currentUser.Some? {
        form := form.(userId := Some(currentUser.value.id));
      }
    }

    /** `addQuestion(type)`: append a fresh question and make it the active one. */
    method AddQuestion(qtype: QuestionType, freshId: string)
      modifies this
      ensures form == old(form).(questions := old(form.questions) + [NewQuestion(qtype, freshId)])
      ensures activeQuestionId == Some(freshId)
      ensures draggedQuestionIndex == old(draggedQuestionIndex) && dropTargetIndex == old(dropTargetIndex)
      ensures Distinct(QuestionIds(old(form.questions))) && freshId !in QuestionIds(old(form.questions))
              ==> Distinct(QuestionIds(form.questions))
    {
      var newQuestion := NewQuestion(qtype, freshId);
      form := form.(questions := form.questions + [newQuestion]);
      activeQuestionId := Some(newQuestion.id);
      Store.DistinctInsert(QuestionIds(old(form.questions)), |old(form.questions)|, freshId);
      assert QuestionIds(form.questions) ==
             InsertAt(QuestionIds(old(form.questions)), |old(form.questions)|, freshId);
    }

    /** `updateQuestion(id, data)`. */
    method UpdateQuestion(id: string, patch: QuestionPatch)
      modifies this
      ensures form == old(form).(questions := UpdatedQuestions(old(form.questions), id, patch))
      ensures activeQuestionId == old(activeQuestionId)
      ensures draggedQuestionIndex == old(draggedQuestionIndex) && dropTargetIndex == old(dropTargetIndex)
    {
      form := form.(questions := UpdatedQuestions(form.questions, id, patch));
    }

    /** `removeQuestion(id)`: drop the question; forget it if it was active. */
    method RemoveQuestion(id: string)
      modifies this
      ensures form == old(form).(questions := WithoutQuestion(old(form.questions), id))
      ensures activeQuestionId == if old(activeQuestionId) == Some(id) then None else old(activeQuestionId)
      ensures draggedQuestionIndex == old(draggedQuestionIndex) && dropTargetIndex == old(dropTargetIndex)
    {
      form := form.(questions := WithoutQuestion(form.questions, id));
      if activeQuestionId == Some(id) {
        activeQuestionId := None;
      }
    }

    /** `duplicateQuestionHandler(id)`, with the uuid of the copy passed in. */
    method DuplicateQuestionHandler(id: string, freshId: string)
      modifies this
      ensures form == old(form).(questions := Store.Duplicated(old(form.questions), id, freshId))
      ensures activeQuestionId == old(activeQuestionId)
      ensures draggedQuestionIndex == old(draggedQuestionIndex) && dropTargetIndex == old(dropTargetIndex)
    {
      var questions := Store.DuplicateQuestion(form.questions, id, freshId);
      form := form.(questions := questions);
    }

    /** `updateForm(data)`: merge the patch and stamp `updatedAt` with `now`. */
    method UpdateForm(patch: FormPatch, now: int)
      modifies this
      ensures form == MergeForm(old(form), patch).(updatedAt := Some(now))
      ensures activeQuestionId == old(activeQuestionId)
      ensures draggedQuestionIndex == old(draggedQuestionIndex) && dropTargetIndex == old(dropTargetIndex)
    {
      form := MergeForm(form, patch).(updatedAt := Some(now));
    }

    /** `saveFormHandler()`: store the form stamped with `now`; the page's own
        state is not changed. */
    method SaveFormHandler(store: Store.FormStore, now: int)
      modifies store
      ensures store.forms == Store.Upserted(old(store.forms), form.(updatedAt := Some(now)))
      ensures store.responses == old(store.responses)
    {
      var updatedForm := form.(updatedAt := Some(now));
      store.SaveForm(updatedForm);
    }

    /** `onActivate`: clicking a card makes its question the active one. */
    method Activate(id: string)
      modifies this`activeQuestionId
      ensures activeQuestionId == Some(id)
    {
      activeQuestionId := Some(id);
    }

    /** `handleDragStart(index)`. */
    method HandleDragStart(index: nat)
      modifies this`draggedQuestionIndex
      ensures draggedQuestionIndex == Some(index)
    {
      draggedQuestionIndex := Some(index);
    }

    /** `handleDragOver(index)`: record the drop target, but only while a drag
        is in progress and when the target actually changes. */
    method HandleDragOver(index: nat)
      modifies this`dropTargetIndex
      ensures old(draggedQuestionIndex).None? ==> dropTargetIndex == old(dropTargetIndex)
      ensures old(dropTargetIndex) == Some(index) ==> dropTargetIndex == old(dropTargetIndex)
      ensures old(draggedQuestionIndex).Some? ==> dropTargetIndex == Some(index)
    {
      if draggedQuestionIndex.None? {
        return;
      }
      if dropTargetIndex == Some(index) {
        return;
      }
      dropTargetIndex := Some(index);
    }

    /** `handleDragEnd()`: when both indices are set, move the dragged question
        to the drop target; in every case clear both indices. The indices come
        from the rendered list, so they are in range. */
    method HandleDragEnd()
      requires draggedQuestionIndex.Some? && dropTargetIndex.Some? ==>
                 draggedQuestionIndex.value == dropTargetIndex.value ||
                 (draggedQuestionIndex.value < |form.questions| && dropTargetIndex.value < |form.questions|)
      modifies this
      ensures old(draggedQuestionIndex).Some? && old(dropTargetIndex).Some? ==>
                form == old(form).(questions := Store.Moved(old(form.questions),
                                                            old(draggedQuestionIndex).value,
                                                            old(dropTargetIndex).value))
      ensures old(draggedQuestionIndex).None? || old(dropTargetIndex).None? ==> form == old(form)
      ensures draggedQuestionIndex == None && dropTargetIndex == None
      ensures activeQuestionId == old(activeQuestionId)
    {
      if draggedQuestionIndex.Some? && dropTargetIndex.Some? {
        var questions := Store.MoveQuestion(form.questions, draggedQuestionIndex.value, dropTargetIndex.value);
        form := form.(questions := questions);
      }
      draggedQuestionIndex := None;
      dropTargetIndex := None;
    }
  }
}
