/** components/form-builder/form-editor.tsx: the server-backed editor. It
    declares its own, smaller Question and Form shapes (a free-form `type`
    string and a `label`), holds the loaded form or nothing, and guards every
    question handler with "no form loaded: do nothing". */
module FormEditor {
  import opened Common

  datatype EditorQuestion = EditorQuestion(
    id: string,
    kind: string,
    questionLabel: string,
    required: bool,
    options: Option<seq<string>> := None)

  /** `Partial<Question>` of this file. */
  datatype EditorQuestionPatch = EditorQuestionPatch(
    id: Option<string> := None,
    kind: Option<string> := None,
    questionLabel: Option<string> := None,
    required: Option<bool> := None,
    options: Option<seq<string>> := None)

  function MergeEditorQuestion(q: EditorQuestion, p: EditorQuestionPatch): EditorQuestion {
    EditorQuestion(
      Override(q.id, p.id),
      Override(q.kind, p.kind),
      Override(q.questionLabel, p.questionLabel),
      Override(q.required, p.required),
      if p.options.Some? then p.options else q.options)
  }

  /** The form as the API returns it; `_id` is called `id` here. */
  datatype EditorForm = EditorForm(
    id: string,
    title: string,
    description: string,
    userId: string,
    questions: seq<EditorQuestion>,
    createdAt: string,
    updatedAt: Option<string> := None)

  function EditorQuestionIds(qs: seq<EditorQuestion>): (ids: seq<string>)
    ensures |ids| == |qs|
    ensures forall i :: 0 <= i < |qs| ==> ids[i] == qs[i].id
  {
    seq(|qs|, i requires 0 <= i < |qs| => qs[i].id)
  }

  /** The question `addQuestion` appends, its id `q${Date.now()}` built from
      the clock reading `now`. */
  function NewEditorQuestion(now: nat): (q: EditorQuestion)
    ensures q.id == "q" + NatToString(now)
    ensures q.kind == "text" && q.questionLabel == "New Question" && !q.required && q.options.None?
  {
    EditorQuestion("q" + NatToString(now), "text", "New Question", false)
  }

  /** Questions added at different milliseconds get different ids. */
  lemma NewEditorQuestionIdsDiffer(now1: nat, now2: nat)
    requires now1 != now2
    ensures NewEditorQuestion(now1).id != NewEditorQuestion(now2).id
  {
    var a, b := NewEditorQuestion(now1).id, NewEditorQuestion(now2).id;
    if a == b {
      assert a[1..] == NatToString(now1) && b[1..] == NatToString(now2);
      NatToStringInjective(now1, now2);
    }
  }

  /** `form.questions.map(q => q.id === questionId ? { ...q, ...updates } : q)`. */
  function UpdatedEditorQuestions(qs: seq<EditorQuestion>, id: string, patch: EditorQuestionPatch)
    : (r: seq<EditorQuestion>)
    ensures |r| == |qs|
    ensures forall i :: 0 <= i < |qs| && qs[i].id != id ==> r[i] == qs[i]
    ensures forall i :: 0 <= i < |qs| && qs[i].id == id ==> r[i] == MergeEditorQuestion(qs[i], patch)
  {
    seq(|qs|, i requires 0 <= i < |qs| => if qs[i].id == id then MergeEditorQuestion(qs[i], patch) else qs[i])
  }

  /** `form.questions.filter(q => q.id !== questionId)`. */
  function WithoutEditorQuestion(qs: seq<EditorQuestion>, id: string): (r: seq<EditorQuestion>)
    ensures id !in EditorQuestionIds(r)
    ensures forall i :: 0 <= i < |r| ==> r[i] in qs
    ensures forall i :: 0 <= i < |qs| && qs[i].id != id ==> qs[i] in r
  {
    var r := Filter(qs, (q: EditorQuestion) => q.id != id);
    assert forall i :: 0 <= i < |r| ==> EditorQuestionIds(r)[i] != id;
    r
  }

  /** With unique ids, deleting a question removes exactly its position and
      the others keep their order. */
  lemma WithoutEditorQuestionRemovesAt(qs: seq<EditorQuestion>, k: nat)
    requires Distinct(EditorQuestionIds(qs)) && k < |qs|
    ensures WithoutEditorQuestion(qs, qs[k].id) == RemoveAt(qs, k)
  {
    var id := qs[k].id;
    assert forall j :: 0 <= j < |qs| && j != k ==> EditorQuestionIds(qs)[j] != EditorQuestionIds(qs)[k];
    FilterDropsOne(qs, (q: EditorQuestion) => q.id != id, k);
  }

  /** `question.options || []`. */
  function OptionsOf(q: EditorQuestion): seq<string> {
    q.options.GetOr([])
  }

  /** The inline option input: copy the options, overwrite one, emit the copy.
      The index is one of the rendered options. */
  method SetOptionPatch(q: EditorQuestion, index: nat, value: string) returns (p: EditorQuestionPatch)
    requires index < |OptionsOf(q)|
    ensures MergeEditorQuestion(q, p) == q.(options := Some(OptionsOf(q)[index := value]))
  {
    var newOptions := OptionsOf(q);
    newOptions := newOptions[index := value];
    p := EditorQuestionPatch(options := Some(newOptions));
  }

  /** The "Remove" button beside an option: copy, splice one out, emit. */
  method RemoveOptionPatch(q: EditorQuestion, index: nat) returns (p: EditorQuestionPatch)
    requires index < |OptionsOf(q)|
    ensures MergeEditorQuestion(q, p) == q.(options := Some(RemoveAt(OptionsOf(q), index)))
  {
    var newOptions := OptionsOf(q);
    newOptions := RemoveAt(newOptions, index);
    p := EditorQuestionPatch(options := Some(newOptions));
  }

  /** The "Add Option" button: append an empty option. */
  function AddOptionPatch(q: EditorQuestion): (p: EditorQuestionPatch)
    ensures MergeEditorQuestion(q, p) == q.(options := Some(OptionsOf(q) + [""]))
  {
    EditorQuestionPatch(options := Some(OptionsOf(q) + [""]))
  }

  /** Removing the option that was just appended gives back the options
      the question had. */
  lemma AddThenRemoveOption(q: EditorQuestion)
    ensures var added := MergeEditorQuestion(q, AddOptionPatch(q));
            |OptionsOf(added)| == |OptionsOf(q)| + 1 &&
            RemoveAt(OptionsOf(added), |OptionsOf(q)|) == OptionsOf(q)
  {
    var added := MergeEditorQuestion(q, AddOptionPatch(q));
    assert OptionsOf(added) == OptionsOf(q) + [""];
  }

  class FormEditorState {
    var form: Option<EditorForm>

    /** `useState<Form | null>(null)`. */
    constructor ()
      ensures form.None?
    {
      form := None;
    }

    /** The fetch effect's `setForm(data.form)`; the request itself is not modelled. */
    method Loaded(fetched: EditorForm)
      modifies this
      ensures form == Some(fetched)
    {
      form := Some(fetched);
    }

    /** `addQuestion()`, with `Date.now()` passed in. */
    method AddQuestion(now: nat)
      modifies this
      ensures old(form).None? ==> form == old(form)
      ensures old(form).Some? ==>
                form == Some(old(form).value.(questions := old(form).value.questions + [NewEditorQuestion(now)]))
    {
      if form.None? {
        return;
      }
      var newQuestion := NewEditorQuestion(now);
      form := Some(form.value.(questions := form.value.questions + [newQuestion]));
    }

    /** `updateQuestion(questionId, updates)`. */
    method UpdateQuestion(questionId: string, updates: EditorQuestionPatch)
      modifies this
      ensures old(form).None? ==> form == old(form)
      ensures old(form).Some? ==>
                form == Some(old(form).value.(questions :=
                               UpdatedEditorQuestions(old(form).value.questions, questionId, updates)))
    {
      if form.None? {
        return;
      }
      form := Some(form.value.(questions := UpdatedEditorQuestions(form.value.questions, questionId, updates)));
    }

    /** `deleteQuestion(questionId)`. */
    method DeleteQuestion(questionId: string)
      modifies this
      ensures old(form).None? ==> form == old(form)
      ensures old(form).Some? ==>
                form == Some(old(form).value.(questions :=
                               WithoutEditorQuestion(old(form).value.questions, questionId)))
    {
      if form.None? {
        return;
      }
      form := Some(form.value.(questions := WithoutEditorQuestion(form.value.questions, questionId)));
    }

    /** The title input, rendered only once a form is loaded. */
    method SetTitle(title: string)
      requires form.Some?
      modifies this
      ensures form == Some(old(form).value.(title := title))
    {
      form := Some(form.value.(title := title));
    }

    /** The description textarea, rendered only once a form is loaded. */
    method SetDescription(description: string)
      requires form.Some?
      modifies this
      ensures form == Some(old(form).value.(description := description))
    {
      form := Some(form.value.(description := description));
    }
  }
}
