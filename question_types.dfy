/** components/form-builder/question-types.tsx: the catalogue of question
    kinds shown by the editor (label and blurb; the icons are not modelled)
    and the lookup that falls back to the first entry. */
module QuestionTypes {
  import opened Common
  import opened FormTypes

  datatype QuestionTypeInfo = QuestionTypeInfo(id: string, typeLabel: string, description: string)

  const QuestionTypesTable: seq<QuestionTypeInfo> := [
    QuestionTypeInfo("text", "Short Answer", "Short answer text"),
    QuestionTypeInfo("paragraph", "Paragraph", "Long answer text"),
    QuestionTypeInfo("multipleChoice", "Multiple Choice", "Choose one option"),
    QuestionTypeInfo("checkbox", "Checkboxes", "Choose multiple options"),
    QuestionTypeInfo("dropdown", "Dropdown", "Choose from a list"),
    QuestionTypeInfo("linearScale", "Linear Scale", "Rate on a scale"),
    QuestionTypeInfo("grid", "Multiple Choice Grid", "Grid of choices"),
    QuestionTypeInfo("date", "Date", "Date picker"),
    QuestionTypeInfo("time", "Time", "Time picker"),
    QuestionTypeInfo("fileUpload", "File Upload", "Upload files"),
    QuestionTypeInfo("section", "Section", "Add a section break")
  ]

  function CatalogueIds(infos: seq<QuestionTypeInfo>): (ids: seq<string>)
    ensures |ids| == |infos|
    ensures forall i :: 0 <= i < |infos| ==> ids[i] == infos[i].id
  {
    seq(|infos|, i requires 0 <= i < |infos| => infos[i].id)
  }

  /** `getQuestionTypeInfo(type)`: the entry with that id, else the first
      ("text", "Short Answer"). */
  function GetQuestionTypeInfo(qtype: string): (info: QuestionTypeInfo)
    ensures info in QuestionTypesTable
    ensures qtype in CatalogueIds(QuestionTypesTable) ==> info.id == qtype
    ensures qtype !in CatalogueIds(QuestionTypesTable) ==>
              info == QuestionTypesTable[0] && info.id == "text" && info.typeLabel == "Short Answer"
  {
    var k := IndexOf(CatalogueIds(QuestionTypesTable), qtype);
    if k < 0 then QuestionTypesTable[0] else QuestionTypesTable[k]
  }

  /** The catalogue's ids, in order, are the names of the eleven kinds. */
  lemma CatalogueIdsAreTypeNames()
    ensures CatalogueIds(QuestionTypesTable) ==
            [TypeName(Text), TypeName(Paragraph), TypeName(MultipleChoice), TypeName(Checkbox),
             TypeName(Dropdown), TypeName(LinearScale), TypeName(Grid), TypeName(Date),
             TypeName(Time), TypeName(FileUpload), TypeName(Section)]
  {
  }

  /** No id occurs twice in the catalogue. */
  lemma CatalogueIdsDistinct()
    ensures |QuestionTypesTable| == 11
    ensures Distinct(CatalogueIds(QuestionTypesTable))
  {
    var ids := CatalogueIds(QuestionTypesTable);
    assert ids == ["text", "paragraph", "multipleChoice", "checkbox", "dropdown", "linearScale",
                   "grid", "date", "time", "fileUpload", "section"];
    forall i, j | 0 <= i < j < |ids| ensures ids[i] != ids[j] {
      assert ids[i][0] != ids[j][0] || |ids[i]| != |ids[j]| || ids[i][1] != ids[j][1];
    }
  }

  /** Every question kind has its own catalogue entry, and the lookup finds it. */
  lemma CatalogueCoversTypes(t: QuestionType)
    ensures TypeName(t) in CatalogueIds(QuestionTypesTable)
    ensures GetQuestionTypeInfo(TypeName(t)).id == TypeName(t)
  {
    CatalogueIdsAreTypeNames();
    var ids := CatalogueIds(QuestionTypesTable);
    match t
    case Text => assert ids[0] == TypeName(t);
    case Paragraph => assert ids[1] == TypeName(t);
    case MultipleChoice => assert ids[2] == TypeName(t);
    case Checkbox => assert ids[3] == TypeName(t);
    case Dropdown => assert ids[4] == TypeName(t);
    case LinearScale => assert ids[5] == TypeName(t);
    case Grid => assert ids[6] == TypeName(t);
    case Date => assert ids[7] == TypeName(t);
    case Time => assert ids[8] == TypeName(t);
    case FileUpload => assert ids[9] == TypeName(t);
    case Section => assert ids[10] == TypeName(t);
  }
}
