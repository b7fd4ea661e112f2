/** app/forms/page.tsx: the list of the user's forms. The page keeps its own
    copy of the stored list; deleting and duplicating update both the store
    and that copy. The card's text fragments are functions. */
module FormsPage {
  import opened Common
  import opened FormTypes
  import Store

  /** `{ ...form, id: crypto.randomUUID(), title: `${form.title} (Copy)`, createdAt: Date.now() }`. */
  function FormCopy(form: Form, freshId: string, now: int): (c: Form)
    ensures c.id == freshId && c.title == form.title + " (Copy)" && c.createdAt == now
    ensures c.(id := form.id, title := form.title, createdAt := form.createdAt) == form
  {
    form.(id := freshId, title := form.title + " (Copy)", createdAt := now)
  }

  /** The badge `{responseCount} {responseCount === 1 ? "response" : "responses"}`. */
  function BadgeText(count: nat): (r: string)
    ensures |r| > |NatToString(count)| + 1
    ensures r[..|NatToString(count)|] == NatToString(count) && r[|NatToString(count)|] == ' '
    ensures r[|r| - 1] == 's' <==> count != 1
    ensures r[|NatToString(count)| + 1..] in {"response", "responses"}
  {
    var digits := NatToString(count);
    var r := digits + " " + (if count == 1 then "response" else "responses");
    assert r[..|digits|] == digits;
    assert r[|digits| + 1..] == if count == 1 then "response" else "responses";
    r
  }

  /** `form.description || "No description"`: never blank, and a non-empty
      description is shown as it is. */
  function DescriptionText(description: string): (r: string)
    ensures r != ""
    ensures description != "" ==> r == description
    ensures description == "" ==> r == "No description"
  {
    if description != "" then description else "No description"
  }

  /** `form.updatedAt &&`: the "Updated on" line appears only for a present,
      non-zero timestamp. */
  predicate ShowsUpdatedLine(form: Form) {
    form.updatedAt.Some? && form.updatedAt.value != 0
  }

  /** A form saved by the builder at a non-zero time shows the "Updated on" line,
      and a freshly duplicated form keeps the original's line. */
  lemma UpdatedLineAfterSave(form: Form, now: int, freshId: string, created: int)
    requires now != 0
    ensures ShowsUpdatedLine(form.(updatedAt := Some(now)))
    ensures ShowsUpdatedLine(FormCopy(form, freshId, created)) <==> ShowsUpdatedLine(form)
  {
  }

  class FormsPage {
    var forms: seq<Form>
    var loading: bool

    /** `useState<Form[]>([])` and `useState(true)`. */
    constructor ()
      ensures forms == [] && loading
    {
      forms := [];
      loading := true;
    }

    /** The mount effect: read the stored list and stop loading. */
    method Load(store: Store.FormStore)
      modifies this
      ensures forms == store.forms && !loading
    {
      forms := store.GetForms();
      loading := false;
    }

    /** `handleDeleteForm(id)`: delete from the store, then filter the page's copy. */
    method HandleDeleteForm(id: string, store: Store.FormStore)
      modifies this, store
      ensures store.forms == Store.WithoutForm(old(store.forms), id)
      ensures store.responses == old(store.responses) - {id}
      ensures forms == Store.WithoutForm(old(forms), id) && loading == old(loading)
      ensures old(forms) == old(store.forms) ==> forms == store.forms
    {
      store.DeleteForm(id);
      forms := Store.WithoutForm(forms, id);
    }

    /** `handleDuplicateForm(form)`, with the uuid and `Date.now()` passed in:
        save the copy, then append it to the page's copy. */
    method HandleDuplicateForm(form: Form, freshId: string, now: int, store: Store.FormStore)
      modifies this, store
      ensures store.forms == Store.Upserted(old(store.forms), FormCopy(form, freshId, now))
      ensures store.responses == old(store.responses)
      ensures forms == old(forms) + [FormCopy(form, freshId, now)] && loading == old(loading)
      ensures old(forms) == old(store.forms) && freshId !in FormIds(old(forms)) ==> forms == store.forms
    {
      var newForm := FormCopy(form, freshId, now);
      store.SaveForm(newForm);
      forms := forms + [newForm];
    }
  }
}
