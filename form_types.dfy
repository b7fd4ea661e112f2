/** The records of lib/types.ts, the ConditionalRule record that
    conditional-logic.tsx declares and lib/types.ts imports, and the
    `Partial<...>` patches the editors merge into them with `{ ...x, ...patch }`.
    An optional field (`?:`) is an `Option`; numbers are integers. */
module FormTypes {
  import opened Common

  /** The eleven question kinds. */
  datatype QuestionType =
    | Text | Paragraph | MultipleChoice | Checkbox | Dropdown | LinearScale
    | Grid | Date | Time | FileUpload | Section

  /** The string each kind is stored and looked up as. */
  function TypeName(t: QuestionType): string {
    match t
    case Text => "text"
    case Paragraph => "paragraph"
    case MultipleChoice => "multipleChoice"
    case Checkbox => "checkbox"
    case Dropdown => "dropdown"
    case LinearScale => "linearScale"
    case Grid => "grid"
    case Date => "date"
    case Time => "time"
    case FileUpload => "fileUpload"
    case Section => "section"
  }

  datatype Operator = Equals | NotEquals | Contains | NotContains | GreaterThan | LessThan

  function OperatorName(op: Operator): string {
    match op
    case Equals => "equals"
    case NotEquals => "not_equals"
    case Contains => "contains"
    case NotContains => "not_contains"
    case GreaterThan => "greater_than"
    case LessThan => "less_than"
  }

  datatype RuleAction = Show | Hide | Require | SkipTo

  function ActionName(a: RuleAction): string {
    match a
    case Show => "show"
    case Hide => "hide"
    case Require => "require"
    case SkipTo => "skip_to"
  }

  /** One authored rule: "if question `questionId` `operator` `value`, then `action`". */
  datatype ConditionalRule = ConditionalRule(
    id: string,
    questionId: string,
    operator: Operator,
    value: string,
    action: RuleAction,
    targetQuestionId: Option<string>)

  /** `Partial<ConditionalRule>`. `targetQuestionId` is doubly optional, because a
      patch may carry the key with the value `undefined`, which clears the field. */
  datatype RulePatch = RulePatch(
    id: Option<string> := None,
    questionId: Option<string> := None,
    operator: Option<Operator> := None,
    value: Option<string> := None,
    action: Option<RuleAction> := None,
    targetQuestionId: Option<Option<string>> := None)

  function MergeRule(r: ConditionalRule, p: RulePatch): ConditionalRule {
    ConditionalRule(
      Override(r.id, p.id),
      Override(r.questionId, p.questionId),
      Override(r.operator, p.operator),
      Override(r.value, p.value),
      Override(r.action, p.action),
      Override(r.targetQuestionId, p.targetQuestionId))
  }

  datatype Question = Question(
    id: string,
    qtype: QuestionType,
    title: string,
    description: Option<string> := None,
    required: bool,
    options: Option<seq<string>> := None,
    rows: Option<seq<string>> := None,
    columns: Option<seq<string>> := None,
    scaleMin: Option<int> := None,
    scaleMax: Option<int> := None,
    minLabel: Option<string> := None,
    maxLabel: Option<string> := None,
    validation: Option<string> := None,
    conditionalLogic: Option<seq<ConditionalRule>> := None,
    points: Option<int> := None)

  /** `Partial<Question>`: a present key overwrites that field. */
  datatype QuestionPatch = QuestionPatch(
    id: Option<string> := None,
    qtype: Option<QuestionType> := None,
    title: Option<string> := None,
    description: Option<string> := None,
    required: Option<bool> := None,
    options: Option<seq<string>> := None,
    rows: Option<seq<string>> := None,
    columns: Option<seq<string>> := None,
    scaleMin: Option<int> := None,
    scaleMax: Option<int> := None,
    minLabel: Option<string> := None,
    maxLabel: Option<string> := None,
    validation: Option<string> := None,
    conditionalLogic: Option<seq<ConditionalRule>> := None,
    points: Option<int> := None)

  /** `{ ...q, ...p }`. Optional fields of `q` become present when `p` has them. */
  function MergeQuestion(q: Question, p: QuestionPatch): Question {
    Question(
      Override(q.id, p.id),
      Override(q.qtype, p.qtype),
      Override(q.title, p.title),
      if p.description.Some? then p.description else q.description,
      Override(q.required, p.required),
      if p.options.Some? then p.options else q.options,
      if p.rows.Some? then p.rows else q.rows,
      if p.columns.Some? then p.columns else q.columns,
      if p.scaleMin.Some? then p.scaleMin else q.scaleMin,
      if p.scaleMax.Some? then p.scaleMax else q.scaleMax,
      if p.minLabel.Some? then p.minLabel else q.minLabel,
      if p.maxLabel.Some? then p.maxLabel else q.maxLabel,
      if p.validation.Some? then p.validation else q.validation,
      if p.conditionalLogic.Some? then p.conditionalLogic else q.conditionalLogic,
      if p.points.Some? then p.points else q.points)
  }

  /** Merging the empty patch changes nothing. */
  lemma MergeEmptyQuestion(q: Question)
    ensures MergeQuestion(q, QuestionPatch()) == q
  {
  }

  /** The ids of a question list, in order. */
  function QuestionIds(qs: seq<Question>): (ids: seq<string>)
    ensures |ids| == |qs|
    ensures forall i :: 0 <= i < |qs| ==> ids[i] == qs[i].id
  {
    seq(|qs|, i requires 0 <= i < |qs| => qs[i].id)
  }

  datatype FormSettings = FormSettings(
    collectEmail: Option<bool> := None,
    limitOneResponse: Option<bool> := None,
    showProgressBar: Option<bool> := None,
    confirmationMessage: Option<string> := None,
    emailNotifications: Option<bool> := None,
    showSummary: Option<bool> := None,
    restrictedAccess: Option<bool> := None,
    deadline: Option<string> := None,
    font: Option<string> := None,
    quizMode: Option<bool> := None,
    shuffleQuestions: Option<bool> := None,
    shuffleOptions: Option<bool> := None)

  /** `headerImage?: string | null`: `None` stands for both absent and `null`. */
  datatype Form = Form(
    id: string,
    title: string,
    description: string,
    questions: seq<Question>,
    createdAt: int,
    updatedAt: Option<int> := None,
    theme: string,
    settings: Option<FormSettings> := None,
    headerImage: Option<string> := None,
    userId: Option<string> := None)

  /** `Partial<Form>`. `headerImage` is doubly optional: a patch may set it to `null`. */
  datatype FormPatch = FormPatch(
    id: Option<string> := None,
    title: Option<string> := None,
    description: Option<string> := None,
    questions: Option<seq<Question>> := None,
    createdAt: Option<int> := None,
    updatedAt: Option<int> := None,
    theme: Option<string> := None,
    settings: Option<FormSettings> := None,
    headerImage: Option<Option<string>> := None,
    userId: Option<string> := None)

  /** `{ ...f, ...p }`. */
  function MergeForm(f: Form, p: FormPatch): Form {
    Form(
      Override(f.id, p.id),
      Override(f.title, p.title),
      Override(f.description, p.description),
      Override(f.questions, p.questions),
      Override(f.createdAt, p.createdAt),
      if p.updatedAt.Some? then p.updatedAt else f.updatedAt,
      Override(f.theme, p.theme),
      if p.settings.Some? then p.settings else f.settings,
      Override(f.headerImage, p.headerImage),
      if p.userId.Some? then p.userId else f.userId)
  }

  /** The ids of a form list, in order. */
  function FormIds(forms: seq<Form>): (ids: seq<string>)
    ensures |ids| == |forms|
    ensures forall i :: 0 <= i < |forms| ==> ids[i] == forms[i].id
  {
    seq(|forms|, i requires 0 <= i < |forms| => forms[i].id)
  }

  /** One stored answer; its shape depends on the question type. */
  datatype Answer =
    | TextAnswer(text: string)
    | ChoicesAnswer(choices: seq<string>)
    | GridAnswer(cells: map<string, string>)

  datatype FormResponse = FormResponse(
    id: string,
    formId: string,
    responses: map<string, Answer>,
    createdAt: int,
    respondentEmail: Option<string> := None,
    score: Option<int> := None,
    maxScore: Option<int> := None)

  /** The public part of an account: what is recorded as the current user. */
  datatype User = User(id: string, name: string, email: string)
}
