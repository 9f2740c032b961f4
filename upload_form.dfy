/** The two-step upload form: step 0 takes an image link or a dropped file,
    step 1 a project title, and a submission hands title and image to the
    parent. The form library's `validate()` and the parent's setters are
    modelled as the fields they change. */
module UploadForm {
  import opened Wrappers
  import opened Upload
  import opened Text

  /** The errors `validate` reports, per field (`None` is `null`). */
  datatype StepErrors = StepErrors(link: Option<string>, title: Option<string>)

  /** `hasErrors`: some field carries an error. */
  predicate HasErrors(e: StepErrors)
  {
    e.link.Some? || e.title.Some?
  }

  /** The highest step of the stepper. */
  const LastStep: int := 2

  /** The title check of step 1: JavaScript truthiness, so only the empty
      string fails; there is no trimming. */
  function TitleError(title: string): (r: Option<string>)
    ensures r == None <==> title != ""
    ensures r != None ==> r == Some("Title is required")
  {
    if title != "" then None else Some("Title is required")
  }

  /** `validate` for the step being shown: the link on step 0, the title on
      step 1, nothing on any other step. */
  function Validate(step: int, link: string, title: string): (r: StepErrors)
    ensures r.link != None ==> step == 0 && r.link == Some("Invalid link")
    ensures r.title != None ==> step == 1 && r.title == Some("Title is required")
    ensures HasErrors(r) <==>
      (step == 0 && link != "" && !IsImageLink(link)) || (step == 1 && title == "")
  {
    if step == 0 then StepErrors(ValidateLink(link), None)
    else if step == 1 then StepErrors(None, TitleError(title))
    else StepErrors(None, None)
  }

  /** The step `nextStep` moves to: one further when validation passes and
      the last step is not reached yet, otherwise the same step. */
  function NextStepOf(current: int, hasErrors: bool): (r: int)
    ensures r == current || r == current + 1
    ensures r == current + 1 <==> !hasErrors && current < LastStep
    ensures 0 <= current <= LastStep ==> 0 <= r <= LastStep
  {
    if hasErrors then current
    else if current < LastStep then current + 1 else current
  }

  /** The step `prevStep` moves to: one back, never below the first. */
  function PrevStepOf(current: int): (r: int)
    ensures r == current || r == current - 1
    ensures r == current - 1 <==> current > 0
    ensures 0 <= current <= LastStep ==> 0 <= r <= LastStep
  {
    if current > 0 then current - 1 else current
  }

  /** A press of Next (with the outcome of validation) or of Back. */
  datatype Move = Next(hasErrors: bool) | Back

  /** The step reached after the moves, in order. */
  function Walk(current: int, moves: seq<Move>): int
    decreases |moves|
  {
    if |moves| == 0 then current
    else
      var step := match moves[0]
        case Next(e) => NextStepOf(current, e)
        case Back => PrevStepOf(current);
      Walk(step, moves[1..])
  }

  /** Whatever the presses, the stepper never leaves steps 0 to 2. */
  lemma {:induction false} WalkStaysInRange(current: int, moves: seq<Move>)
    requires 0 <= current <= LastStep
    ensures 0 <= Walk(current, moves) <= LastStep
    decreases |moves|
  {
    if |moves| > 0 {
      var step := match moves[0]
        case Next(e) => NextStepOf(current, e)
        case Back => PrevStepOf(current);
      WalkStaysInRange(step, moves[1..]);
    }
  }

  /** Next leaves step 0 exactly when the link is empty or an image link,
      leaves step 1 exactly when a title is typed, and never leaves step 2. */
  lemma AdvanceRule(link: string, title: string)
    ensures NextStepOf(0, HasErrors(Validate(0, link, title))) == 1
        <==> (link == "" || IsImageLink(link))
    ensures NextStepOf(1, HasErrors(Validate(1, link, title))) == 2 <==> title != ""
    ensures NextStepOf(2, HasErrors(Validate(2, link, title))) == 2
  {
  }

  /** A title of white space only is accepted: the title check does not
      trim, so `nextStep`'s updater would leave step 1 with it. */
  lemma BlankTitleAccepted(link: string, title: string)
    requires |title| > 0 && forall i :: 0 <= i < |title| ==> IsJsWhitespace(title[i])
    ensures TitleError(title) == None
    ensures !HasErrors(Validate(1, link, title))
    ensures NextStepOf(1, HasErrors(Validate(1, link, title))) == 2
  {
  }

  /** The form's state: the dropped `files`, the stepper's `active` step,
      the fields `link`, `file` and `title`, the errors of the last
      validation, and the parent's `submitted`, `imageURL` and
      `projectTitle`, which the form writes through its setters. */
  class UploadStepper {
    var files: seq<File>
    var active: int
    var link: string
    var file: Option<File>
    var title: string
    var errors: StepErrors
    var submitted: bool
    var imageURL: string
    var projectTitle: string

    predicate Valid()
      reads this
    {
      0 <= active <= LastStep
    }

    /** Mounting: no files, step 0, empty fields and no errors; the parent's
        state is whatever the parent holds. */
    constructor(parentSubmitted: bool, parentImageURL: string, parentTitle: string)
      ensures Valid()
      ensures files == [] && active == 0 && errors == StepErrors(None, None)
      ensures link == "" && file == None && title == ""
      ensures submitted == parentSubmitted && imageURL == parentImageURL
      ensures projectTitle == parentTitle
    {
      files := [];
      active := 0;
      link := "";
      file := None;
      title := "";
      errors := StepErrors(None, None);
      submitted := parentSubmitted;
      imageURL := parentImageURL;
      projectTitle := parentTitle;
    }

    /** Typing in the link field. */
    method EditLink(v: string)
      modifies this`link
      ensures link == v
    {
      link := v;
    }

    /** Typing in the title field. */
    method EditTitle(v: string)
      modifies this`title
      ensures title == v
    {
      title := v;
    }

    /** The effect on `files`: the first dropped file becomes the form's
        file; an empty list leaves the file as it was. */
    method FilesEffect()
      modifies this`file
      ensures |files| > 0 ==> file == Some(files[0])
      ensures |files| == 0 ==> file == old(file)
    {
      if |files| > 0 {
        file := Some(files[0]);
      }
    }

    /** The drop zone's `onDrop`: the list is replaced, then its effect
        runs. */
    method DropFiles(dropped: seq<File>)
      modifies this`files, this`file
      ensures files == dropped
      ensures |dropped| > 0 ==> file == Some(dropped[0])
      ensures |dropped| == 0 ==> file == old(file)
    {
      files := dropped;
      FilesEffect();
    }

    /** `resetUpload`: no file and no dropped files; the files effect that
        follows finds the list empty and changes nothing. */
    method ResetUpload()
      modifies this`files, this`file
      ensures file == None && files == []
    {
      file := None;
      files := [];
      FilesEffect();
    }

    /** `nextStep`: validation of the current step is recorded, and the
        step advances only when it found nothing. */
    method NextStep()
      requires Valid()
      modifies this`active, this`errors
      ensures Valid()
      ensures errors == Validate(old(active), link, title)
      ensures active == NextStepOf(old(active), HasErrors(errors))
    {
      errors := Validate(active, link, title);
      active := NextStepOf(active, HasErrors(errors));
    }

    /** `prevStep`. */
    method PrevStep()
      requires Valid()
      modifies this`active
      ensures Valid()
      ensures active == PrevStepOf(old(active))
    {
      active := PrevStepOf(active);
    }

    /** `handleUploadSubmission`: the title always goes to the parent; a link
        marks the project submitted and becomes its image, a file alone
        only marks it submitted, and with neither nothing else changes. */
    method HandleUploadSubmission()
      modifies this`projectTitle, this`submitted, this`imageURL
      ensures projectTitle == title
      ensures SubmissionSource(link, file).LinkSource? ==> submitted && imageURL == link
      ensures SubmissionSource(link, file).FileSource? ==> submitted && imageURL == old(imageURL)
      ensures SubmissionSource(link, file) == NoSource ==>
        submitted == old(submitted) && imageURL == old(imageURL)
    {
      projectTitle := title;
      match SubmissionSource(link, file)
      case LinkSource(url) =>
        submitted := true;
        imageURL := url;
      case FileSource(_) =>
        submitted := true;
      case NoSource =>
    }

    /** Next is disabled exactly when a submission would have no source. */
    function NextDisabled(): (r: bool)
      reads this
      ensures r <==> SubmissionSource(link, file) == NoSource
    {
      link == "" && file == None
    }

    /** Submit is disabled exactly when the title check of step 1 objects. */
    function SubmitDisabled(): (r: bool)
      reads this
      ensures r <==> TitleError(title) != None
    {
      title == ""
    }
  }

  /** On step 1 a title of white space only leaves Submit enabled, so the
      project is handed on with a blank title. */
  lemma BlankTitleEnablesSubmit(u: UploadStepper)
    requires |u.title| > 0 && forall i :: 0 <= i < |u.title| ==> IsJsWhitespace(u.title[i])
    ensures !u.SubmitDisabled()
  {
    BlankTitleAccepted(u.link, u.title);
  }
}
