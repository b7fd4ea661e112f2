/** components/form-builder/form-settings.tsx: the settings panel. It never
    changes the form itself; each control emits one `updateForm(patch)`, and
    every settings control sends the whole settings object rebuilt as
    `{ ...form.settings, <field>: value }`. Each control is a function from
    the form (and the control's new value) to that patch. */
module FormSettingsPanel {
  import opened Common
  import opened FormTypes
  import FormThemes

  /** The six on/off switches. */
  datatype Flag = CollectEmail | LimitOneResponse | ShowProgressBar | EmailNotifications | ShowSummary | RestrictedAccess

  /** The settings fields the panel edits. */
  datatype Field = FlagField(flag: Flag) | ConfirmationMessage | Deadline | Font

  function FlagValue(s: FormSettings, f: Flag): Option<bool> {
    match f
    case CollectEmail => s.collectEmail
    case LimitOneResponse => s.limitOneResponse
    case ShowProgressBar => s.showProgressBar
    case EmailNotifications => s.emailNotifications
    case ShowSummary => s.showSummary
    case RestrictedAccess => s.restrictedAccess
  }

  function WithFlag(s: FormSettings, f: Flag, v: Option<bool>): FormSettings {
    match f
    case CollectEmail => s.(collectEmail := v)
    case LimitOneResponse => s.(limitOneResponse := v)
    case ShowProgressBar => s.(showProgressBar := v)
    case EmailNotifications => s.(emailNotifications := v)
    case ShowSummary => s.(showSummary := v)
    case RestrictedAccess => s.(restrictedAccess := v)
  }

  /** The settings with one field blanked: two settings objects that agree
      after blanking `field` differ at most in `field`. */
  function Cleared(s: FormSettings, field: Field): FormSettings {
    match field
    case FlagField(f) => WithFlag(s, f, None)
    case ConfirmationMessage => s.(confirmationMessage := None)
    case Deadline => s.(deadline := None)
    case Font => s.(font := None)
  }

  /** `{ ...form.settings }`: spreading an absent settings object gives `{}`. */
  function CurrentSettings(form: Form): FormSettings {
    form.settings.GetOr(FormSettings())
  }

  /** After a settings control, the form is the old one except for its
      settings, and those differ at most in `field`. */
  predicate OnlySettingChanged(r: Form, form: Form, field: Field) {
    r.(settings := form.settings) == form && r.settings.Some? &&
    Cleared(CurrentSettings(r), field) == Cleared(CurrentSettings(form), field)
  }

  /** `checked={form.settings?.<flag> || false}`. */
  predicate FlagShown(form: Form, f: Flag) {
    FlagValue(CurrentSettings(form), f).GetOr(false)
  }

  /** A switch's `onCheckedChange(checked)`: the switch then shows `checked`,
      and no other field of the form or its settings changes. */
  function ToggleFlag(form: Form, f: Flag, checked: bool): (p: FormPatch)
    ensures FlagValue(CurrentSettings(MergeForm(form, p)), f) == Some(checked)
    ensures FlagShown(MergeForm(form, p), f) == checked
    ensures OnlySettingChanged(MergeForm(form, p), form, FlagField(f))
  {
    FormPatch(settings := Some(WithFlag(CurrentSettings(form), f, Some(checked))))
  }

  /** Turning one switch leaves every other switch as it was. */
  lemma ToggleKeepsOtherFlags(form: Form, f: Flag, checked: bool, g: Flag)
    requires g != f
    ensures FlagShown(MergeForm(form, ToggleFlag(form, f, checked)), g) == FlagShown(form, g)
  {
    var s := CurrentSettings(form);
    var r := CurrentSettings(MergeForm(form, ToggleFlag(form, f, checked)));
    assert Cleared(r, FlagField(f)) == Cleared(s, FlagField(f));
    assert FlagValue(Cleared(r, FlagField(f)), g) == FlagValue(r, g);
    assert FlagValue(Cleared(s, FlagField(f)), g) == FlagValue(s, g);
  }

  /** `checked={!!form.settings?.confirmationMessage}`; the message editor is
      shown under the same condition. */
  predicate ConfirmationShown(form: Form) {
    var m := CurrentSettings(form).confirmationMessage;
    m.Some? && m.value != ""
  }

  /** The confirmation switch: on sets the stock message, off sets "". */
  function ToggleConfirmation(form: Form, checked: bool): (p: FormPatch)
    ensures var r := MergeForm(form, p);
            CurrentSettings(r).confirmationMessage ==
              Some(if checked then "Thank you for your response!" else "") &&
            (ConfirmationShown(r) <==> checked) &&
            OnlySettingChanged(r, form, ConfirmationMessage)
  {
    var message := if checked then "Thank you for your response!" else "";
    FormPatch(settings := Some(CurrentSettings(form).(confirmationMessage := Some(message))))
  }

  /** Typing in the message editor; clearing the text hides the editor. */
  function EditConfirmation(form: Form, text: string): (p: FormPatch)
    ensures var r := MergeForm(form, p);
            CurrentSettings(r).confirmationMessage == Some(text) &&
            (ConfirmationShown(r) <==> text != "") &&
            OnlySettingChanged(r, form, ConfirmationMessage)
  {
    FormPatch(settings := Some(CurrentSettings(form).(confirmationMessage := Some(text))))
  }

  /** `checked={!!form.settings?.deadline}`; the date input is shown under the
      same condition. */
  predicate DeadlineShown(form: Form) {
    var d := CurrentSettings(form).deadline;
    d.Some? && d.value != ""
  }

  /** The deadline switch, with `new Date().toISOString()` passed in as `nowIso`:
      on stores the current time, off removes the deadline. */
  function ToggleDeadline(form: Form, checked: bool, nowIso: string): (p: FormPatch)
    ensures var r := MergeForm(form, p);
            CurrentSettings(r).deadline == (if checked then Some(nowIso) else None) &&
            (DeadlineShown(r) <==> checked && nowIso != "") &&
            OnlySettingChanged(r, form, Deadline)
  {
    FormPatch(settings := Some(CurrentSettings(form).(deadline := if checked then Some(nowIso) else None)))
  }

  /** The date input, with `new Date(value).toISOString()` passed in as `iso`. */
  function EditDeadline(form: Form, iso: string): (p: FormPatch)
    ensures var r := MergeForm(form, p);
            CurrentSettings(r).deadline == Some(iso) && OnlySettingChanged(r, form, Deadline)
  {
    FormPatch(settings := Some(CurrentSettings(form).(deadline := Some(iso))))
  }

  /** `rest.split("T")[0].substring(0, 5)`: at most five characters of the
      text before the next "T", as a prefix of `rest`. */
  function TimePart(rest: string): (time: string)
    ensures var j := IndexOf(rest, 'T');
            var n := if j < 0 then |rest| else j;
            |time| == (if n < 5 then n else 5) && time == rest[..|time|]
  {
    var j := IndexOf(rest, 'T');
    var piece := if j < 0 then rest else rest[..j];
    if |piece| <= 5 then piece else piece[..5]
  }

  /** The value shown in the date input:
      `d.split("T")[0] + "T" + d.split("T")[1].substring(0, 5)`. With no "T" in
      `d` the second piece is undefined and the expression throws: `None`.
      Otherwise it is the prefix of `d` through its first "T", followed by at
      most five characters of the text before the next "T". */
  function DeadlineDisplay(d: string): (r: Option<string>)
    ensures r.None? <==> 'T' !in d
    ensures r.Some? ==>
              var k := IndexOf(d, 'T');
              k + 1 <= |r.value| <= k + 6 && |r.value| <= |d| && r.value == d[..|r.value|]
    ensures r.Some? && 'T' !in d[IndexOf(d, 'T') + 1..] && |d| >= IndexOf(d, 'T') + 6 ==>
              r.value == d[..IndexOf(d, 'T') + 6]
    ensures r.Some? ==>
              var k := IndexOf(d, 'T');
              var j := IndexOf(d[k + 1..], 'T');
              var timeLength := if j < 0 then |d| - k - 1 else j;
              r.value == d[..k + 1 + (if timeLength < 5 then timeLength else 5)]
  {
    var k := IndexOf(d, 'T');
    if k < 0 then None
    else
      var time := TimePart(d[k + 1..]);
      SplicePrefix(d, k, time);
      Some(d[..k] + "T" + time)
  }

  /** Putting the prefix before a "T" back together with a piece of what
      follows it gives a prefix of the string. */
  lemma SplicePrefix(d: string, k: nat, time: string)
    requires k < |d| && d[k] == 'T' && |time| <= |d| - k - 1
    requires time == d[k + 1..][..|time|]
    ensures d[..k] + "T" + time == d[..k + 1 + |time|]
  {
    assert forall i :: 0 <= i < |time| ==> time[i] == d[k + 1 + i];
  }

  /** For a timestamp as `toISOString` writes it, "YYYY-MM-DDTHH:mm:ss.sssZ",
      the input shows its first sixteen characters: date, "T", hours and minutes. */
  lemma DeadlineDisplayOfIsoString(d: string)
    requires |d| == 24 && d[10] == 'T'
    requires forall i :: 0 <= i < |d| && i != 10 ==> d[i] != 'T'
    ensures DeadlineDisplay(d) == Some(d[..16])
  {
    assert d[10] == 'T' && 'T' !in d[..10];
    assert IndexOf(d, 'T') == 10;
    assert forall i :: 0 <= i < |d[11..]| ==> d[11..][i] == d[11 + i];
    assert 'T' !in d[11..];
  }

  /** `value={form.settings?.font || "default"}`. */
  function FontShown(form: Form): (font: string)
    ensures font != ""
    ensures var f := CurrentSettings(form).font;
            font == (if f.Some? && f.value != "" then f.value else "default")
  {
    var f := CurrentSettings(form).font;
    if f.Some? && f.value != "" then f.value else "default"
  }

  /** The font selector. */
  function SelectFont(form: Form, font: string): (p: FormPatch)
    ensures var r := MergeForm(form, p);
            CurrentSettings(r).font == Some(font) &&
            FontShown(r) == (if font == "" then "default" else font) &&
            OnlySettingChanged(r, form, Font)
  {
    FormPatch(settings := Some(CurrentSettings(form).(font := Some(font))))
  }

  /** A form without a settings object shows every switch off, no confirmation
      message, no deadline and the default font. */
  lemma AbsentSettingsDefaults(form: Form, f: Flag)
    requires form.settings.None?
    ensures !FlagShown(form, f) && !ConfirmationShown(form) && !DeadlineShown(form)
    ensures FontShown(form) == "default"
  {
  }

  /** Clicking a theme swatch. */
  function SelectTheme(form: Form, theme: FormThemes.Theme): (p: FormPatch)
    ensures MergeForm(form, p) == form.(theme := theme.id)
  {
    FormPatch(theme := Some(theme.id))
  }

  /** After clicking any swatch, looking the form's theme up gives back that
      very theme, because the theme ids are unique. */
  lemma SelectedThemeIsLookedUp(form: Form, k: nat)
    requires k < |FormThemes.FormThemesTable|
    ensures FormThemes.GetThemeById(MergeForm(form, SelectTheme(form, FormThemes.FormThemesTable[k])).theme)
            == FormThemes.FormThemesTable[k]
  {
    FormThemes.ThemeIdsDistinct();
    var table := FormThemes.FormThemesTable;
    var ids := FormThemes.ThemeIds(table);
    var t := FormThemes.GetThemeById(table[k].id);
    assert ids[k] == table[k].id;
    var j :| 0 <= j < |table| && table[j] == t;
    assert ids[j] == ids[k];
  }

  /** The title input. */
  function SetTitle(form: Form, title: string): (p: FormPatch)
    ensures MergeForm(form, p) == form.(title := title)
  {
    FormPatch(title := Some(title))
  }

  /** The description input. */
  function SetDescription(form: Form, description: string): (p: FormPatch)
    ensures MergeForm(form, p) == form.(description := description)
  {
    FormPatch(description := Some(description))
  }
}
