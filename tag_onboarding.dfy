/**
 * The onboarding form of src/app/onboarding/page.tsx: a PDF upload tab and a
 * manual tab whose skills, interests and achievements are tag lists kept free
 * of duplicates, each with its own pending text box.
 */
module TagOnboarding {
  import opened Wrappers
  import opened Text
  import Upload
  import opened Lists

  datatype Tab = UploadTab | ManualTab

  /** The three tag lists of the form. */
  datatype TagField = Skills | Interests | Achievements

  /** The `formData` state object. */
  datatype FormData = FormData(
    name: string, email: string, dreamJob: string, education: string, experience: string,
    skills: seq<string>, interests: seq<string>, achievements: seq<string>)
  {
    function Tags(f: TagField): seq<string> {
      match f
      case Skills => skills
      case Interests => interests
      case Achievements => achievements
    }

    function WithTags(f: TagField, tags: seq<string>): (r: FormData)
      ensures r.Tags(f) == tags
      ensures forall g :: g != f ==> r.Tags(g) == Tags(g)
      ensures r.name == name && r.email == email && r.dreamJob == dreamJob
      ensures r.education == education && r.experience == experience
    {
      match f
      case Skills => this.(skills := tags)
      case Interests => this.(interests := tags)
      case Achievements => this.(achievements := tags)
    }
  }

  /** The `newTag` state object: the pending text of each tag input. */
  datatype NewTag = NewTag(skills: string, interests: string, achievements: string)
  {
    function Text(f: TagField): string {
      match f
      case Skills => skills
      case Interests => interests
      case Achievements => achievements
    }

    function WithText(f: TagField, s: string): (r: NewTag)
      ensures r.Text(f) == s
      ensures forall g :: g != f ==> r.Text(g) == Text(g)
    {
      match f
      case Skills => this.(skills := s)
      case Interests => this.(interests := s)
      case Achievements => this.(achievements := s)
    }
  }

  /** `handleTagAdd` on one list and its pending text: the trimmed text is
      appended and the text box cleared, unless the trimmed text is empty or
      already in the list, in which case nothing changes. */
  function AddTag(tags: seq<string>, pending: string): (seq<string>, string)
  {
    var v := Trim(pending);
    if v != "" && v !in tags then (tags + [v], "") else (tags, pending)
  }

  /** What `AddTag` does, stated through membership: the new list keeps the old
      one as its prefix and grows by at most the trimmed text, which must be
      non-empty and new; the text box is cleared when the list grew and
      untouched otherwise. */
  lemma AddTagMeaning(tags: seq<string>, pending: string)
    ensures var (t, p) := AddTag(tags, pending);
      && (t == tags || t == tags + [Trim(pending)])
      && (forall x :: x in t <==> x in tags || (x == Trim(pending) && x != ""))
      && (|t| > |tags| ==> p == "")
      && (|t| == |tags| ==> p == pending)
  {
  }

  /** An empty or whitespace-only text, or one already present, changes
      neither the list nor the text box. */
  lemma AddTagRejects(tags: seq<string>, pending: string)
    requires AllWhitespace(pending) || Trim(pending) in tags
    ensures AddTag(tags, pending) == (tags, pending)
  {
  }

  /** Adding a tag keeps a duplicate-free list duplicate-free. */
  lemma AddTagKeepsDistinct(tags: seq<string>, pending: string)
    requires Distinct(tags)
    ensures Distinct(AddTag(tags, pending).0)
  {
  }

  /** `isFormValid`: on the upload tab a file must be present; on the manual
      tab name, email and dream job must be non-empty (they are not trimmed). */
  predicate FormValid(tab: Tab, uploaded: Option<Upload.File>, fd: FormData) {
    if tab == UploadTab then uploaded.Some?
    else fd.name != "" && fd.email != "" && fd.dreamJob != ""
  }

  /** The two paths of `handleSubmit`. */
  datatype Route = PdfUpload | ManualProfile

  /** `handleSubmit` uploads the PDF when on the upload tab with a file, and
      otherwise submits the manual profile. */
  function SubmitRoute(tab: Tab, uploaded: Option<Upload.File>): Route {
    if tab == UploadTab && uploaded.Some? then PdfUpload else ManualProfile
  }

  /** When the submit button is enabled, the upload tab always takes the PDF
      path and the manual tab always submits a name, email and dream job. */
  lemma ValidFormRoute(tab: Tab, uploaded: Option<Upload.File>, fd: FormData)
    requires FormValid(tab, uploaded, fd)
    ensures SubmitRoute(tab, uploaded) == PdfUpload <==> tab == UploadTab
    ensures SubmitRoute(tab, uploaded) == ManualProfile ==> fd.name != "" && fd.email != "" && fd.dreamJob != ""
  {
  }

  /** `name.split(" ")[0] || ""`. */
  function FirstName(name: string): string {
    FirstWord(name)
  }

  /** `name.split(" ").slice(1).join(" ") || ""`. */
  function LastName(name: string): string {
    Join(Split(name, ' ')[1..], ' ')
  }

  /** The first name is the text before the first space and the last name the
      text after it, so together they rebuild the name; a name without a
      space is all first name. */
  lemma NameSplit(name: string)
    ensures ' ' !in FirstName(name)
    ensures ' ' in name ==> FirstName(name) + " " + LastName(name) == name
    ensures ' ' !in name ==> FirstName(name) == name && LastName(name) == ""
  {
    SplitFirst(name, ' ');
    if ' ' in name {
      var k := IndexOf(name, ' ');
      assert name[..k] + " " + name[k + 1..] == name;
    }
  }

  class OnboardingForm {
    var activeTab: Tab
    var uploadedFile: Option<Upload.File>
    var isDragOver: bool
    var formData: FormData
    var newTag: NewTag

    /** Every tag list is duplicate-free and the uploaded file, if any, is a PDF. */
    ghost predicate Valid()
      reads this
    {
      && Distinct(formData.skills) && Distinct(formData.interests) && Distinct(formData.achievements)
      && Upload.Holds(uploadedFile)
    }

    /** The initial state: name and email come from the signed-in user. */
    constructor (displayName: Option<string>, email: Option<string>)
      ensures Valid()
      ensures activeTab == UploadTab && uploadedFile == None && !isDragOver
      ensures formData == FormData(displayName.GetOr(""), email.GetOr(""), "", "", "", [], [], [])
      ensures newTag == NewTag("", "", "")
    {
      activeTab := UploadTab;
      uploadedFile := None;
      isDragOver := false;
      formData := FormData(displayName.GetOr(""), email.GetOr(""), "", "", "", [], [], []);
      newTag := NewTag("", "", "");
    }

    predicate IsFormValid()
      reads this
    {
      FormValid(activeTab, uploadedFile, formData)
    }

    method SelectTab(tab: Tab)
      requires Valid()
      modifies this
      ensures Valid()
      ensures activeTab == tab
      ensures uploadedFile == old(uploadedFile) && formData == old(formData) && newTag == old(newTag)
      ensures isDragOver == old(isDragOver)
    {
      activeTab := tab;
    }

    /** Typing into the tag input of `f`. */
    method SetPending(f: TagField, text: string)
      requires Valid()
      modifies this`newTag
      ensures Valid()
      ensures newTag == old(newTag).WithText(f, text)
    {
      newTag := newTag.WithText(f, text);
    }

    /** `handleTagAdd(f)`: see `AddTag`; the other lists and texts are untouched. */
    method HandleTagAdd(f: TagField)
      requires Valid()
      modifies this`formData, this`newTag
      ensures Valid()
      ensures (formData.Tags(f), newTag.Text(f)) == AddTag(old(formData.Tags(f)), old(newTag.Text(f)))
      ensures formData == old(formData).WithTags(f, formData.Tags(f))
      ensures newTag == old(newTag).WithText(f, newTag.Text(f))
    {
      var value := Trim(newTag.Text(f));
      if value != "" && value !in formData.Tags(f) {
        AddTagKeepsDistinct(formData.Tags(f), newTag.Text(f));
        formData := formData.WithTags(f, formData.Tags(f) + [value]);
        newTag := newTag.WithText(f, "");
      }
    }

    /** `handleTagRemove(f, index)`: see `RemoveIndex`. */
    method HandleTagRemove(f: TagField, index: int)
      requires Valid()
      modifies this`formData
      ensures Valid()
      ensures formData == old(formData).WithTags(f, RemoveIndex(old(formData.Tags(f)), index))
    {
      RemoveKeepsDistinct(formData.Tags(f), index);
      formData := formData.WithTags(f, RemoveIndex(formData.Tags(f), index));
    }

    /** `handleTagKeyPress`: Enter adds the tag; any other key does nothing. */
    method HandleTagKeyPress(key: string, f: TagField)
      requires Valid()
      modifies this`formData, this`newTag
      ensures Valid()
      ensures key == "Enter" ==>
        (formData.Tags(f), newTag.Text(f)) == AddTag(old(formData.Tags(f)), old(newTag.Text(f)))
        && formData == old(formData).WithTags(f, formData.Tags(f))
        && newTag == old(newTag).WithText(f, newTag.Text(f))
      ensures key != "Enter" ==> formData == old(formData) && newTag == old(newTag)
    {
      if key == "Enter" {
        HandleTagAdd(f);
      }
    }

    method HandleDragOver()
      modifies this`isDragOver
      ensures isDragOver
    {
      isDragOver := true;
    }

    method HandleDragLeave()
      modifies this`isDragOver
      ensures !isDragOver
    {
      isDragOver := false;
    }

    /** `handleDrop`: see `Upload.AfterDrop`. */
    method HandleDrop(files: seq<Upload.File>)
      requires Valid()
      modifies this`isDragOver, this`uploadedFile
      ensures Valid()
      ensures !isDragOver
      ensures uploadedFile == Upload.AfterDrop(old(uploadedFile), files)
    {
      isDragOver := false;
      if |files| > 0 && files[0].mimeType == Upload.PdfType {
        uploadedFile := Some(files[0]);
      }
    }

    /** `handleFileSelect`: see `Upload.AfterSelect`. */
    method HandleFileSelect(files: Option<seq<Upload.File>>)
      requires Valid()
      modifies this`uploadedFile
      ensures Valid()
      ensures uploadedFile == Upload.AfterSelect(old(uploadedFile), files)
    {
      if files.Some? && |files.value| > 0 && files.value[0].mimeType == Upload.PdfType {
        uploadedFile := Some(files.value[0]);
      }
    }

    /** The remove button of the upload preview. */
    method ClearUpload()
      requires Valid()
      modifies this`uploadedFile
      ensures Valid()
      ensures uploadedFile == None
    {
      uploadedFile := None;
    }
  }
}
