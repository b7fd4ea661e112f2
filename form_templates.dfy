/** components/form-builder/form-templates.tsx: the six starter templates
    and the lookup that falls back to the first ("blank") one. */
module FormTemplates {
  import opened Common
  import opened FormTypes

  /** A template question as the table writes it: `title` and `required`
      may be left out (the survey's section break has no `required`). */
  datatype TemplateQuestion = TemplateQuestion(
    id: string,
    qtype: QuestionType,
    title: Option<string>,
    required: Option<bool>,
    options: Option<seq<string>> := None,
    rows: Option<seq<string>> := None,
    columns: Option<seq<string>> := None,
    scaleMin: Option<int> := None,
    scaleMax: Option<int> := None,
    minLabel: Option<string> := None,
    maxLabel: Option<string> := None)

  datatype Template = Template(
    id: string,
    name: string,
    description: string,
    icon: string,
    questions: seq<TemplateQuestion>)

  /** A table entry that states both its title and its `required` flag. */
  function Q(id: string, t: QuestionType, title: string, required: bool): TemplateQuestion {
    TemplateQuestion(id, t, Some(title), Some(required))
  }

  const BlankTemplate := Template("blank", "Blank", "Start from scratch", "File", [])

  const ContactTemplate := Template("contact", "Contact Information", "Collect contact details", "UserCircle", [
    Q("name", Text, "Name", true),
    Q("email", Text, "Email", true),
    Q("phone", Text, "Phone Number", false),
    Q("address", Paragraph, "Address", false)])

  const EventTemplate := Template("event", "Event Registration", "Plan events and gatherings", "Calendar", [
    Q("name", Text, "Full Name", true),
    Q("email", Text, "Email Address", true),
    Q("attending", MultipleChoice, "Will you be attending?", true).(options := Some(["Yes", "No", "Maybe"])),
    Q("guests", Dropdown, "Number of guests", false).(options := Some(["0", "1", "2", "3", "4", "5+"])),
    Q("dietary", Checkbox, "Dietary Restrictions", false)
      .(options := Some(["Vegetarian", "Vegan", "Gluten-Free", "Dairy-Free", "None"]))])

  const FeedbackTemplate := Template("feedback", "Customer Feedback", "Collect user opinions", "MessageSquare", [
    Q("satisfaction", LinearScale, "How satisfied are you with our service?", true)
      .(scaleMin := Some(1), scaleMax := Some(5),
        minLabel := Some("Very Dissatisfied"), maxLabel := Some("Very Satisfied")),
    Q("recommend", LinearScale, "How likely are you to recommend us to a friend?", true)
      .(scaleMin := Some(0), scaleMax := Some(10),
        minLabel := Some("Not at all likely"), maxLabel := Some("Extremely likely")),
    Q("improvements", Paragraph, "What could we do to improve?", false),
    Q("features", Checkbox, "Which features do you value the most?", false)
      .(options := Some(["Ease of use", "Customer support", "Features", "Price", "Reliability"]))])

  const SurveyTemplate := Template("survey", "Customer Survey", "Comprehensive feedback form", "ClipboardList", [
    Q("age", Dropdown, "Age", true)
      .(options := Some(["Under 18", "18-24", "25-34", "35-44", "45-54", "55-64", "65+"])),
    Q("gender", MultipleChoice, "Gender", true)
      .(options := Some(["Male", "Female", "Non-binary", "Prefer not to say"])),
    Q("usage", MultipleChoice, "How often do you use our product?", true)
      .(options := Some(["Daily", "Weekly", "Monthly", "Rarely", "Never"])),
    TemplateQuestion("section1", Section, Some("Product Feedback"), None),
    Q("ratings", Grid, "Please rate the following aspects of our product", true)
      .(rows := Some(["Ease of use", "Features", "Design", "Customer support", "Value for money"]),
        columns := Some(["Poor", "Fair", "Good", "Very good", "Excellent"])),
    Q("improvements", Paragraph, "What improvements would you suggest?", false)])

  const RsvpTemplate := Template("rsvp", "RSVP", "Event response form", "PartyPopper", [
    Q("name", Text, "Full Name", true),
    Q("attending", MultipleChoice, "Will you be attending?", true)
      .(options := Some(["Yes, I'll be there!", "Sorry, I can't make it"])),
    Q("guests", Dropdown, "Number of guests (including yourself)", true).(options := Some(["1", "2", "3", "4"])),
    Q("dietary", Paragraph, "Any dietary requirements?", false)])

  /** The table in its order: the first entry is the fallback. */
  const FormTemplatesTable: seq<Template> :=
    [BlankTemplate, ContactTemplate, EventTemplate, FeedbackTemplate, SurveyTemplate, RsvpTemplate]

  function TemplateIds(ts: seq<Template>): (ids: seq<string>)
    ensures |ids| == |ts|
    ensures forall i :: 0 <= i < |ts| ==> ids[i] == ts[i].id
  {
    seq(|ts|, i requires 0 <= i < |ts| => ts[i].id)
  }

  function TemplateQuestionIds(qs: seq<TemplateQuestion>): (ids: seq<string>)
    ensures |ids| == |qs|
    ensures forall i :: 0 <= i < |qs| ==> ids[i] == qs[i].id
  {
    seq(|qs|, i requires 0 <= i < |qs| => qs[i].id)
  }

  /** `getTemplateById(id)`: the template with that id, else the first one. */
  function GetTemplateById(id: string): (t: Template)
    ensures t in FormTemplatesTable
    ensures id in TemplateIds(FormTemplatesTable) ==> t.id == id
    ensures id !in TemplateIds(FormTemplatesTable) ==> t == FormTemplatesTable[0]
  {
    var k := IndexOf(TemplateIds(FormTemplatesTable), id);
    if k < 0 then FormTemplatesTable[0] else FormTemplatesTable[k]
  }

  /** The fallback is the blank template, which has no questions, and it is the
      only template without questions. */
  lemma FallbackIsBlank()
    ensures FormTemplatesTable[0].id == "blank" && FormTemplatesTable[0].questions == []
    ensures forall i :: 1 <= i < |FormTemplatesTable| ==> |FormTemplatesTable[i].questions| > 0
  {
  }

  /** The six template ids are pairwise different, so the lookup is unambiguous. */
  lemma TemplateIdsDistinct()
    ensures |FormTemplatesTable| == 6
    ensures Distinct(TemplateIds(FormTemplatesTable))
  {
    assert TemplateIds(FormTemplatesTable) == ["blank", "contact", "event", "feedback", "survey", "rsvp"];
  }

  /** A template's question list is well formed when its ids are pairwise
      different and only the question at `section` (a section break, or none when
      `section` is -1) leaves out `required`. */
  ghost predicate QuestionsWellFormed(qs: seq<TemplateQuestion>, section: int) {
    Distinct(TemplateQuestionIds(qs)) &&
    forall j :: 0 <= j < |qs| ==> (qs[j].required.None? <==> j == section)
  }

  lemma ContactWellFormed()
    ensures QuestionsWellFormed(ContactTemplate.questions, -1)
  {
    assert TemplateQuestionIds(ContactTemplate.questions) == ["name", "email", "phone", "address"];
  }

  lemma EventWellFormed()
    ensures QuestionsWellFormed(EventTemplate.questions, -1)
  {
    assert TemplateQuestionIds(EventTemplate.questions) == ["name", "email", "attending", "guests", "dietary"];
  }

  lemma FeedbackWellFormed()
    ensures QuestionsWellFormed(FeedbackTemplate.questions, -1)
  {
    assert TemplateQuestionIds(FeedbackTemplate.questions) == ["satisfaction", "recommend", "improvements", "features"];
  }

  lemma SurveyWellFormed()
    ensures QuestionsWellFormed(SurveyTemplate.questions, 3)
  {
    assert TemplateQuestionIds(SurveyTemplate.questions) ==
           ["age", "gender", "usage", "section1", "ratings", "improvements"];
  }

  lemma RsvpWellFormed()
    ensures QuestionsWellFormed(RsvpTemplate.questions, -1)
  {
    assert TemplateQuestionIds(RsvpTemplate.questions) == ["name", "attending", "guests", "dietary"];
  }

  /** Template `i` of the table is well formed; only the survey (index 4) has a
      question without `required`, its fourth. */
  lemma TemplateWellFormed(i: nat)
    requires i < |FormTemplatesTable|
    ensures QuestionsWellFormed(FormTemplatesTable[i].questions, if i == 4 then 3 else -1)
  {
    if i == 1 { ContactWellFormed(); }
    else if i == 2 { EventWellFormed(); }
    else if i == 3 { FeedbackWellFormed(); }
    else if i == 4 { SurveyWellFormed(); }
    else if i == 5 { RsvpWellFormed(); }
  }

  /** Within each template the question ids are pairwise different, and the only
      question that leaves out `required` is the survey's section break. */
  lemma TemplateQuestionsWellFormed()
    ensures forall i :: 0 <= i < |FormTemplatesTable| ==>
              Distinct(TemplateQuestionIds(FormTemplatesTable[i].questions))
    ensures forall i, j :: 0 <= i < |FormTemplatesTable| && 0 <= j < |FormTemplatesTable[i].questions| ==>
              (FormTemplatesTable[i].questions[j].required.None? <==> (i == 4 && j == 3))
    ensures FormTemplatesTable[4].id == "survey"
    ensures FormTemplatesTable[4].questions[3].id == "section1"
    ensures FormTemplatesTable[4].questions[3].qtype == Section
  {
    forall i | 0 <= i < |FormTemplatesTable|
      ensures Distinct(TemplateQuestionIds(FormTemplatesTable[i].questions))
      ensures forall j :: 0 <= j < |FormTemplatesTable[i].questions| ==>
                (FormTemplatesTable[i].questions[j].required.None? <==> (i == 4 && j == 3))
    {
      TemplateWellFormed(i);
    }
  }
}
