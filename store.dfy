/** lib/store.ts: the browser store of forms (key `forms`) and of each
    form's responses (key `responses_<id>`), held here as a list of forms
    and a map from form id to that form's response list, plus the two
    question-list helpers the editors call. */
module Store {
  import opened Common
  import opened FormTypes

  /** `forms.find((form) => form.id === id) || null`: the first form with that id. */
  function FindForm(forms: seq<Form>, id: string): (r: Option<Form>)
    ensures r.None? <==> id !in FormIds(forms)
    ensures r.Some? ==> exists k :: 0 <= k < |forms| && forms[k] == r.value && r.value.id == id
                                      && id !in FormIds(forms)[..k]
  {
    var k := IndexOf(FormIds(forms), id);
    if k < 0 then None else Some(forms[k])
  }

  /** With unique ids, the form found is the only one with that id. */
  lemma FindFormUnique(forms: seq<Form>, k: nat)
    requires Distinct(FormIds(forms)) && k < |forms|
    ensures FindForm(forms, forms[k].id) == Some(forms[k])
  {
    var ids := FormIds(forms);
    var j := IndexOf(ids, forms[k].id);
    assert ids[j] == ids[k];
  }

  /** The list `saveForm` writes back: the first form with the same id is
      replaced in place; otherwise the form is appended. */
  function Upserted(forms: seq<Form>, form: Form): (r: seq<Form>)
    ensures form.id !in FormIds(forms) ==> r == forms + [form]
    ensures form.id in FormIds(forms) ==>
              var k := IndexOf(FormIds(forms), form.id);
              |r| == |forms| && r[k] == form &&
              forall i :: 0 <= i < |forms| && i != k ==> r[i] == forms[i]
    ensures FindForm(r, form.id) == Some(form)
    ensures forall x :: x in FormIds(r) <==> x in FormIds(forms) || x == form.id
    ensures Distinct(FormIds(forms)) ==> Distinct(FormIds(r))
  {
    var k := IndexOf(FormIds(forms), form.id);
    if k >= 0 then
      var r := forms[k := form];
      assert FormIds(r) == FormIds(forms);
      assert FormIds(r)[..k] == FormIds(forms)[..k];
      r
    else
      var r := forms + [form];
      assert FormIds(r) == FormIds(forms) + [form.id];
      assert FormIds(r)[..|forms|] == FormIds(forms);
      r
  }

  /** `forms.filter((form) => form.id !== id)`. */
  function WithoutForm(forms: seq<Form>, id: string): (r: seq<Form>)
    ensures id !in FormIds(r)
    ensures forall i :: 0 <= i < |r| ==> r[i] in forms
    ensures forall i :: 0 <= i < |forms| && forms[i].id != id ==> forms[i] in r
  {
    var r := Filter(forms, (f: Form) => f.id != id);
    assert forall i :: 0 <= i < |r| ==> FormIds(r)[i] != id;
    r
  }

  /** Deleting by a unique id removes exactly that position; the others keep their order. */
  lemma WithoutFormRemovesAt(forms: seq<Form>, k: nat)
    requires Distinct(FormIds(forms)) && k < |forms|
    ensures WithoutForm(forms, forms[k].id) == RemoveAt(forms, k)
  {
    var id := forms[k].id;
    assert forall j :: 0 <= j < |forms| && j != k ==> FormIds(forms)[j] != FormIds(forms)[k];
    FilterDropsOne(forms, (f: Form) => f.id != id, k);
  }

  /** Deleting an id that no form has changes nothing. */
  lemma WithoutAbsentForm(forms: seq<Form>, id: string)
    requires id !in FormIds(forms)
    ensures WithoutForm(forms, id) == forms
  {
    assert forall i :: 0 <= i < |forms| ==> forms[i].id != id by {
      forall i | 0 <= i < |forms| ensures forms[i].id != id {
        assert FormIds(forms)[i] == forms[i].id;
      }
    }
    FilterKeepsAll(forms, (f: Form) => f.id != id);
  }

  class FormStore {
    var forms: seq<Form>
    var responses: map<string, seq<FormResponse>>

    /** An empty browser store: both keys are absent. */
    constructor ()
      ensures forms == [] && responses == map[]
    {
      forms := [];
      responses := map[];
    }

    /** `getForms()`: the stored list, `[]` when the key is absent. */
    function GetForms(): (r: seq<Form>)
      reads this
      ensures r == forms
    {
      forms
    }

    /** `getForm(id)`: the first stored form with that id, `null` when none has it. */
    function GetForm(id: string): (r: Option<Form>)
      reads this
      ensures r.None? <==> id !in FormIds(forms)
      ensures r.Some? ==> exists k :: 0 <= k < |forms| && forms[k] == r.value && r.value.id == id
                                        && id !in FormIds(forms)[..k]
    {
      FindForm(forms, id)
    }

    /** `saveForm(form)`: look the id up, then overwrite that slot or push. */
    method SaveForm(form: Form)
      modifies this
      ensures forms == Upserted(old(forms), form)
      ensures responses == old(responses)
    {
      var existingIndex := IndexOf(FormIds(forms), form.id);
      if existingIndex >= 0 {
        forms := forms[existingIndex := form];
      } else {
        forms := forms + [form];
      }
    }

    /** `deleteForm(id)`: filter the list and drop the form's response key. */
    method DeleteForm(id: string)
      modifies this
      ensures forms == WithoutForm(old(forms), id)
      ensures responses == old(responses) - {id}
      ensures forall other :: other != id ==> GetResponses(other) == old(GetResponses(other))
    {
      forms := WithoutForm(forms, id);
      responses := responses - {id};
    }

    /** `getResponses(formId)`: a form that has no key reads as having no responses. */
    function GetResponses(formId: string): (r: seq<FormResponse>)
      reads this
      ensures formId !in responses ==> r == []
      ensures formId in responses ==> r == responses[formId]
    {
      if formId in responses then responses[formId] else []
    }

    /** `saveResponse(formId, response)`: append to that form's list. */
    method SaveResponse(formId: string, response: FormResponse)
      modifies this
      ensures forms == old(forms)
      ensures GetResponses(formId) == old(GetResponses(formId)) + [response]
      ensures forall other :: other != formId ==> GetResponses(other) == old(GetResponses(other))
      ensures responses.Keys == old(responses.Keys) + {formId}
    {
      responses := responses[formId := GetResponses(formId) + [response]];
    }
  }

  /** The copy `duplicateQuestion` inserts: every field equal except a new id
      and the title suffixed with " (Copy)". */
  function CopyOf(q: Question, freshId: string): (c: Question)
    ensures c.id == freshId && c.title == q.title + " (Copy)"
    ensures c.(id := q.id, title := q.title) == q
  {
    q.(id := freshId, title := q.title + " (Copy)")
  }

  /** The list `duplicateQuestion` returns. */
  function Duplicated(qs: seq<Question>, id: string, freshId: string): (r: seq<Question>)
    ensures id !in QuestionIds(qs) ==> r == qs
    ensures id in QuestionIds(qs) ==>
              var i := IndexOf(QuestionIds(qs), id);
              |r| == |qs| + 1 && r[i + 1] == CopyOf(qs[i], freshId) &&
              r[..i + 1] == qs[..i + 1] && RemoveAt(r, i + 1) == qs
    ensures Distinct(QuestionIds(qs)) && freshId !in QuestionIds(qs) ==> Distinct(QuestionIds(r))
  {
    var i := IndexOf(QuestionIds(qs), id);
    if i < 0 then qs
    else
      var r := InsertAt(qs, i + 1, CopyOf(qs[i], freshId));
      InsertedIds(qs, i + 1, CopyOf(qs[i], freshId));
      RemoveInserted(qs, i + 1, CopyOf(qs[i], freshId));
      DistinctInsert(QuestionIds(qs), i + 1, freshId);
      r
  }

  /** The ids of a list with one question inserted are its ids with that
      question's id inserted at the same place. */
  lemma InsertedIds(qs: seq<Question>, i: nat, q: Question)
    requires i <= |qs|
    ensures QuestionIds(InsertAt(qs, i, q)) == InsertAt(QuestionIds(qs), i, q.id)
  {
  }

  /** Inserting an element that is not yet present keeps a list duplicate-free. */
  lemma DistinctInsert<T>(s: seq<T>, i: nat, x: T)
    requires i <= |s|
    ensures Distinct(s) && x !in s ==> Distinct(InsertAt(s, i, x))
  {
    if Distinct(s) && x !in s {
      var r := InsertAt(s, i, x);
      forall a, b | 0 <= a < b < |r| ensures r[a] != r[b] {
        if a == i {
          assert r[b] == s[b - 1];
        } else if b == i {
          assert r[a] == s[a];
        }
      }
    }
  }

  /** `duplicateQuestion(questions, questionId)`, with the uuid passed in:
      find the index, copy the list, splice the copy in after the original. */
  method DuplicateQuestion(questions: seq<Question>, questionId: string, freshId: string)
    returns (r: seq<Question>)
    ensures r == Duplicated(questions, questionId, freshId)
  {
    var questionIndex := IndexOf(QuestionIds(questions), questionId);
    if questionIndex == -1 {
      return questions;
    }
    var question := questions[questionIndex];
    var newQuestion := question.(id := freshId, title := question.title + " (Copy)");
    var newQuestions := questions;
    newQuestions := InsertAt(newQuestions, questionIndex + 1, newQuestion);
    return newQuestions;
  }

  /** The list `moveQuestion` returns. Indices are in range unless they are equal. */
  function Moved(qs: seq<Question>, from: nat, to: nat): (r: seq<Question>)
    requires from == to || (from < |qs| && to < |qs|)
    ensures |r| == |qs|
    ensures from == to ==> r == qs
    ensures from < |qs| && to < |qs| ==>
              r[to] == qs[from] && RemoveAt(r, to) == RemoveAt(qs, from)
    ensures multiset(r) == multiset(qs)
  {
    if from == to then qs
    else
      var rest := RemoveAt(qs, from);
      RemoveAtMultiset(qs, from);
      InsertAtMultiset(rest, to, qs[from]);
      RemoveInserted(rest, to, qs[from]);
      assert multiset{qs[from]} <= multiset(qs);
      InsertAt(rest, to, qs[from])
  }

  /** Where everything lands: moving forward shifts the questions in between
      one place up, moving backward shifts them one place down, and the
      questions outside the range stay where they were. */
  lemma MovedPositions(qs: seq<Question>, from: nat, to: nat, k: nat)
    requires from < |qs| && to < |qs| && k < |qs|
    ensures k < from && k < to ==> Moved(qs, from, to)[k] == qs[k]
    ensures k > from && k > to ==> Moved(qs, from, to)[k] == qs[k]
    ensures from <= k < to ==> Moved(qs, from, to)[k] == qs[k + 1]
    ensures to < k <= from ==> Moved(qs, from, to)[k] == qs[k - 1]
  {
    var r := Moved(qs, from, to);
    if from != to && k != to {
      var rk := if k < to then k else k - 1;
      assert r[k] == RemoveAt(r, to)[rk];
    }
  }

  /** `moveQuestion(questions, fromIndex, toIndex)`: copy, splice out, splice in. */
  method MoveQuestion(questions: seq<Question>, fromIndex: nat, toIndex: nat)
    returns (r: seq<Question>)
    requires fromIndex == toIndex || (fromIndex < |questions| && toIndex < |questions|)
    ensures r == Moved(questions, fromIndex, toIndex)
  {
    if fromIndex == toIndex {
      return questions;
    }
    var newQuestions := questions;
    var removed := newQuestions[fromIndex];
    newQuestions := RemoveAt(newQuestions, fromIndex);
    newQuestions := InsertAt(newQuestions, toIndex, removed);
    return newQuestions;
  }
}
