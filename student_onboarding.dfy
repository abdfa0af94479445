/**
 * The onboarding form of app/onboarding/page.tsx: a PDF upload tab and a
 * manual tab with contact details, current education (including a subjects
 * list that admits duplicates) and a table of test scores edited row by row.
 */
module StudentOnboarding {
  import opened Wrappers
  import opened Text
  import opened Lists
  import Upload

  datatype Tab = UploadTab | ManualTab

  /** `formData.currentEducation`; every field is the raw text of its input. */
  datatype Education = Education(
    gradeLevel: string, schoolName: string, board: string, percentage: string,
    subjects: seq<string>, expectedGraduationYear: string)

  /** One row of the test-score table. */
  datatype TestScore = TestScore(testName: string, score: string, rank: string)

  /** The three inputs of a test-score row. */
  datatype TestField = TestName | Score | Rank

  function Cell(row: TestScore, f: TestField): string {
    match f
    case TestName => row.testName
    case Score => row.score
    case Rank => row.rank
  }

  /** The `formData` state object. */
  datatype FormData = FormData(
    name: string, email: string, phone: string, dob: string, location: string,
    currentEducation: Education, testScores: seq<TestScore>)

  /** The subject input's Enter key and its "+" button: the trimmed text is
      appended (duplicates allowed) and the input cleared, unless the trimmed
      text is empty, in which case nothing changes. */
  function AddSubject(subjects: seq<string>, pending: string): (r: (seq<string>, string))
    ensures r.0 == subjects || r.0 == subjects + [Trim(pending)]
    ensures r.0 == subjects + [Trim(pending)] <==> !AllWhitespace(pending)
    ensures AllWhitespace(pending) ==> r == (subjects, pending)
    ensures !AllWhitespace(pending) ==> r.1 == ""
  {
    var v := Trim(pending);
    if v != "" then (subjects + [v], "") else (subjects, pending)
  }

  /** Every subject is non-empty and carries no surrounding whitespace. */
  predicate AllTrimmed(subjects: seq<string>) {
    forall i :: 0 <= i < |subjects| ==> TrimmedNonBlank(subjects[i])
  }

  /** Adding a subject keeps every subject trimmed and non-empty. */
  lemma AddKeepsTrimmed(subjects: seq<string>, pending: string)
    requires AllTrimmed(subjects)
    ensures AllTrimmed(AddSubject(subjects, pending).0)
  {
    var v := Trim(pending);
    if v != "" {
      assert TrimmedNonBlank(v);
      var r := subjects + [v];
      assert forall i :: 0 <= i < |subjects| ==> r[i] == subjects[i];
      assert AddSubject(subjects, pending).0 == r;
    }
  }

  /** Removing a subject keeps every subject trimmed and non-empty. */
  lemma RemoveKeepsTrimmed(subjects: seq<string>, index: int)
    requires AllTrimmed(subjects)
    ensures AllTrimmed(RemoveIndex(subjects, index))
  {
    RemoveIndexMeaning(subjects, index);
    var r := RemoveIndex(subjects, index);
    forall i | 0 <= i < |r| ensures TrimmedNonBlank(r[i]) {
      assert r[i] == subjects[if 0 <= index < |subjects| && i >= index then i + 1 else i];
    }
  }

  /** "+ Add Test": one blank row at the end. */
  function AddTest(rows: seq<TestScore>): (r: seq<TestScore>)
    ensures |r| == |rows| + 1 && r[..|rows|] == rows
    ensures r[|rows|] == TestScore("", "", "")
  {
    rows + [TestScore("", "", "")]
  }

  /** `newScores[index].field = value` for one row of the table (the source
      indexes the copy of the array, so `index` is always a row that exists). */
  function EditTest(rows: seq<TestScore>, index: int, f: TestField, value: string): (r: seq<TestScore>)
    requires 0 <= index < |rows|
    ensures |r| == |rows|
    ensures forall j :: 0 <= j < |rows| && j != index ==> r[j] == rows[j]
    ensures Cell(r[index], f) == value
    ensures forall g :: g != f ==> Cell(r[index], g) == Cell(rows[index], g)
  {
    var row := rows[index];
    var row' := match f
      case TestName => row.(testName := value)
      case Score => row.(score := value)
      case Rank => row.(rank := value);
    rows[index := row']
  }

  /** `isFormValid`: on the upload tab a file must be present; on the manual
      tab name, email, phone, date of birth and location must be non-empty. */
  predicate FormValid(tab: Tab, uploaded: Option<Upload.File>, fd: FormData) {
    if tab == UploadTab then uploaded.Some?
    else fd.name != "" && fd.email != "" && fd.phone != "" && fd.dob != "" && fd.location != ""
  }

  /** The manual tab asks for five fields: clearing any one of them disables
      submission, and no education or test-score data is needed. */
  lemma ManualValidNeedsFive(uploaded: Option<Upload.File>, fd: FormData, edu: Education, rows: seq<TestScore>)
    ensures FormValid(ManualTab, uploaded, fd) ==>
      FormValid(ManualTab, uploaded, fd.(currentEducation := edu, testScores := rows))
    ensures !FormValid(ManualTab, uploaded, fd.(name := ""))
    ensures !FormValid(ManualTab, uploaded, fd.(email := ""))
    ensures !FormValid(ManualTab, uploaded, fd.(phone := ""))
    ensures !FormValid(ManualTab, uploaded, fd.(dob := ""))
    ensures !FormValid(ManualTab, uploaded, fd.(location := ""))
    ensures FormValid(UploadTab, uploaded, fd) <==> uploaded.Some?
  {
  }

  class StudentForm {
    var activeTab: Tab
    var uploadedFile: Option<Upload.File>
    var isDragOver: bool
    var formData: FormData
    var newSubject: string

    /** The uploaded file, if any, is a PDF and every subject is trimmed and non-empty. */
    ghost predicate Valid()
      reads this
    {
      Upload.Holds(uploadedFile) && AllTrimmed(formData.currentEducation.subjects)
    }

    /** The initial state: name and email come from the signed-in user. */
    constructor (displayName: Option<string>, email: Option<string>)
      ensures Valid()
      ensures activeTab == UploadTab && uploadedFile == None && !isDragOver && newSubject == ""
      ensures formData == FormData(displayName.GetOr(""), email.GetOr(""), "", "", "",
                                   Education("", "", "", "", [], ""), [])
    {
      activeTab := UploadTab;
      uploadedFile := None;
      isDragOver := false;
      formData := FormData(displayName.GetOr(""), email.GetOr(""), "", "", "",
                           Education("", "", "", "", [], ""), []);
      newSubject := "";
    }

    predicate IsFormValid()
      reads this
    {
      FormValid(activeTab, uploadedFile, formData)
    }

    method SelectTab(tab: Tab)
      requires Valid()
      modifies this`activeTab
      ensures Valid()
      ensures activeTab == tab
    {
      activeTab := tab;
    }

    /** Typing into the subject input. */
    method SetNewSubject(text: string)
      requires Valid()
      modifies this`newSubject
      ensures Valid()
      ensures newSubject == text
    {
      newSubject := text;
    }

    /** Appends the trimmed subject; shared by the Enter key and the button. */
    method AddSubjectIfPresent()
      requires Valid()
      modifies this`formData, this`newSubject
      ensures Valid()
      ensures (formData.currentEducation.subjects, newSubject)
           == AddSubject(old(formData.currentEducation.subjects), old(newSubject))
      ensures formData == old(formData).(currentEducation :=
                old(formData.currentEducation).(subjects := formData.currentEducation.subjects))
    {
      AddKeepsTrimmed(formData.currentEducation.subjects, newSubject);
      var value := Trim(newSubject);
      if value != "" {
        formData := formData.(currentEducation :=
          formData.currentEducation.(subjects := formData.currentEducation.subjects + [value]));
        newSubject := "";
      }
    }

    /** `onKeyDown` of the subject input: only Enter adds. */
    method SubjectKeyDown(key: string)
      requires Valid()
      modifies this`formData, this`newSubject
      ensures Valid()
      ensures key == "Enter" ==>
        (formData.currentEducation.subjects, newSubject)
          == AddSubject(old(formData.currentEducation.subjects), old(newSubject))
        && formData == old(formData).(currentEducation :=
             old(formData.currentEducation).(subjects := formData.currentEducation.subjects))
      ensures key != "Enter" ==> formData == old(formData) && newSubject == old(newSubject)
    {
      if key == "Enter" {
        AddSubjectIfPresent();
      }
    }

    /** The "+" button next to the subject input. */
    method SubjectButtonClick()
      requires Valid()
      modifies this`formData, this`newSubject
      ensures Valid()
      ensures (formData.currentEducation.subjects, newSubject)
           == AddSubject(old(formData.currentEducation.subjects), old(newSubject))
      ensures formData == old(formData).(currentEducation :=
                old(formData.currentEducation).(subjects := formData.currentEducation.subjects))
    {
      AddSubjectIfPresent();
    }

    /** The X on subject badge `i`. */
    method RemoveSubject(i: int)
      requires Valid()
      modifies this`formData
      ensures Valid()
      ensures formData == old(formData).(currentEducation :=
                old(formData.currentEducation).(subjects := RemoveIndex(old(formData.currentEducation.subjects), i)))
    {
      RemoveKeepsTrimmed(formData.currentEducation.subjects, i);
      formData := formData.(currentEducation :=
        formData.currentEducation.(subjects := RemoveIndex(formData.currentEducation.subjects, i)));
    }

    /** The "+ Add Test" button. */
    method AddTestRow()
      requires Valid()
      modifies this`formData
      ensures Valid()
      ensures formData == old(formData).(testScores := AddTest(old(formData.testScores)))
    {
      formData := formData.(testScores := formData.testScores + [TestScore("", "", "")]);
    }

    /** The `onChange` of input `f` in row `index`. */
    method EditTestRow(index: int, f: TestField, value: string)
      requires Valid()
      requires 0 <= index < |formData.testScores|
      modifies this`formData
      ensures Valid()
      ensures formData == old(formData).(testScores := EditTest(old(formData.testScores), index, f, value))
    {
      var newScores := formData.testScores;
      var row := newScores[index];
      match f {
        case TestName => row := row.(testName := value);
        case Score => row := row.(score := value);
        case Rank => row := row.(rank := value);
      }
      newScores := newScores[index := row];
      formData := formData.(testScores := newScores);
    }

    method HandleDragOver()
      modifies this`isDragOver
      ensures isDragOver
    {
      isDragOver := true;
    }

    method HandleDragLeave()
      modifies this`isDragOver
      ensures !isDragOver
    {
      isDragOver := false;
    }

    /** `handleDrop`: see `Upload.AfterDrop`. */
    method HandleDrop(files: seq<Upload.File>)
      requires Valid()
      modifies this`isDragOver, this`uploadedFile
      ensures Valid()
      ensures !isDragOver
      ensures uploadedFile == Upload.AfterDrop(old(uploadedFile), files)
    {
      isDragOver := false;
      if |files| > 0 && files[0].mimeType == Upload.PdfType {
        uploadedFile := Some(files[0]);
      }
    }

    /** `handleFileSelect`: see `Upload.AfterSelect`. */
    method HandleFileSelect(files: Option<seq<Upload.File>>)
      requires Valid()
      modifies this`uploadedFile
      ensures Valid()
      ensures uploadedFile == Upload.AfterSelect(old(uploadedFile), files)
    {
      if files.Some? && |files.value| > 0 && files.value[0].mimeType == Upload.PdfType {
        uploadedFile := Some(files.value[0]);
      }
    }

    /** The remove button of the upload preview. */
    method ClearUpload()
      requires Valid()
      modifies this`uploadedFile
      ensures Valid()
      ensures uploadedFile == None
    {
      uploadedFile := None;
    }
  }
}
