/** components/form-builder/question-card.tsx: the list editors for a
    question's options, grid rows and grid columns, and the two description
    toggles. A card does not change the question itself: every handler emits
    one `updateQuestion(question.id, patch)` call, modelled as an `Edit`. */
module QuestionCard {
  import opened Common
  import opened FormTypes

  /** The three string lists a card edits; the row and column helpers are
      the option helpers applied to another field. */
  datatype ListField = Options | Rows | Columns

  /** One `updateQuestion(id, data)` call. */
  datatype Edit = Edit(questionId: string, patch: QuestionPatch)

  function Entries(q: Question, field: ListField): Option<seq<string>> {
    match field
    case Options => q.options
    case Rows => q.rows
    case Columns => q.columns
  }

  /** `question.<field> || []`: an absent list counts as empty. */
  function ListOf(q: Question, field: ListField): seq<string> {
    Entries(q, field).GetOr([])
  }

  /** `r` agrees with `q` on every field except possibly `field`. */
  predicate SameExcept(r: Question, q: Question, field: ListField) {
    match field
    case Options => r.(options := q.options) == q
    case Rows => r.(rows := q.rows) == q
    case Columns => r.(columns := q.columns) == q
  }

  /** The patch `{ <field>: entries }`. */
  function ListPatch(field: ListField, entries: seq<string>): QuestionPatch {
    match field
    case Options => QuestionPatch(options := Some(entries))
    case Rows => QuestionPatch(rows := Some(entries))
    case Columns => QuestionPatch(columns := Some(entries))
  }

  /** Such a patch sets its own list and no other field of the question. */
  lemma ListPatchTouchesOnlyField(q: Question, field: ListField, entries: seq<string>)
    ensures Entries(MergeQuestion(q, ListPatch(field, entries)), field) == Some(entries)
    ensures SameExcept(MergeQuestion(q, ListPatch(field, entries)), q, field)
  {
  }

  /** `addOption` / `addRowOption` / `addColumnOption`: append an empty entry. */
  function AddEntry(q: Question, field: ListField): (e: Edit)
    ensures e.questionId == q.id
    ensures Entries(MergeQuestion(q, e.patch), field) == Some(ListOf(q, field) + [""])
    ensures SameExcept(MergeQuestion(q, e.patch), q, field)
  {
    var entries := ListOf(q, field) + [""];
    ListPatchTouchesOnlyField(q, field, entries);
    Edit(q.id, ListPatch(field, entries))
  }

  /** `updateOption(index, value)` and its row and column twins: copy the
      list, overwrite one slot, emit the copy. The index is one of the
      rendered entries. */
  method UpdateEntry(q: Question, field: ListField, index: nat, value: string) returns (e: Edit)
    requires index < |ListOf(q, field)|
    ensures e.questionId == q.id
    ensures Entries(MergeQuestion(q, e.patch), field) == Some(ListOf(q, field)[index := value])
    ensures SameExcept(MergeQuestion(q, e.patch), q, field)
  {
    var entries := ListOf(q, field);
    entries := entries[index := value];
    ListPatchTouchesOnlyField(q, field, entries);
    e := Edit(q.id, ListPatch(field, entries));
  }

  /** `removeOption(index)` and its row and column twins: copy the list,
      splice one slot out, emit the copy. */
  method RemoveEntry(q: Question, field: ListField, index: nat) returns (e: Edit)
    requires index < |ListOf(q, field)|
    ensures e.questionId == q.id
    ensures Entries(MergeQuestion(q, e.patch), field) == Some(RemoveAt(ListOf(q, field), index))
    ensures SameExcept(MergeQuestion(q, e.patch), q, field)
  {
    var entries := ListOf(q, field);
    entries := RemoveAt(entries, index);
    ListPatchTouchesOnlyField(q, field, entries);
    e := Edit(q.id, ListPatch(field, entries));
  }

  /** Adding an entry and then removing the last one gives back the list the
      card started from. */
  lemma AddThenRemoveLast(q: Question, field: ListField)
    ensures var added := MergeQuestion(q, AddEntry(q, field).patch);
            |ListOf(added, field)| == |ListOf(q, field)| + 1 &&
            RemoveAt(ListOf(added, field), |ListOf(q, field)|) == ListOf(q, field)
  {
    var added := MergeQuestion(q, AddEntry(q, field).patch);
    assert ListOf(added, field) == ListOf(q, field) + [""];
  }

  /** `question.description ?`: the description is shown when present and non-empty. */
  predicate DescriptionShown(q: Question) {
    q.description.Some? && q.description.value != ""
  }

  /** The menu item "Add/Remove description": "" when one is shown, else " ". */
  function MenuToggleDescription(q: Question): (e: Edit)
    ensures e.questionId == q.id
    ensures var r := MergeQuestion(q, e.patch);
            r.description == Some(if DescriptionShown(q) then "" else " ") &&
            (DescriptionShown(r) <==> !DescriptionShown(q)) &&
            r.(description := q.description) == q
  {
    Edit(q.id, QuestionPatch(description := Some(if DescriptionShown(q) then "" else " ")))
  }

  /** The "Show description" switch, displayed as on iff a description is shown. */
  function SwitchDescription(q: Question, checked: bool): (e: Edit)
    ensures e.questionId == q.id
    ensures var r := MergeQuestion(q, e.patch);
            r.description == Some(if checked then " " else "") &&
            (DescriptionShown(r) <==> checked) &&
            r.(description := q.description) == q
  {
    Edit(q.id, QuestionPatch(description := Some(if checked then " " else "")))
  }

  /** Using the menu item twice shows the description again exactly when it
      was shown before. */
  lemma MenuToggleTwice(q: Question)
    ensures var once := MergeQuestion(q, MenuToggleDescription(q).patch);
            var twice := MergeQuestion(once, MenuToggleDescription(once).patch);
            DescriptionShown(twice) <==> DescriptionShown(q)
  {
  }
}
