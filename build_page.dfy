/** The build page's upload form: an image link or a dropped file, and a
    submit that validates the link first and then picks a source. The form
    library's `onSubmit` is modelled as validation followed by the handler. */
module BuildPage {
  import opened Wrappers
  import opened Upload

  /** What a press of Submit leads to: `None` when the link validator
      objects (the handler is not called), otherwise the source the handler
      picks. */
  function OnSubmit(link: string, file: Option<File>): (r: Option<Source>)
    ensures r == None <==> link != "" && !IsImageLink(link)
    ensures r != None ==> r.value == SubmissionSource(link, file)
  {
    if ValidateLink(link) != None then None else Some(SubmissionSource(link, file))
  }

  /** A link that reaches the handler is an image link, and it is taken even
      when a file was dropped too. */
  lemma SubmittedLinkIsImageLink(link: string, file: Option<File>)
    requires OnSubmit(link, file).Some?
    requires link != ""
    ensures IsImageLink(link)
    ensures OnSubmit(link, file) == Some(LinkSource(link))
  {
  }

  /** With neither a link nor a file, the handler runs and does nothing. */
  lemma NothingWithoutSource()
    ensures OnSubmit("", None) == Some(NoSource)
  {
  }

  /** The page's state: the dropped `files`, the fields `link` and `file`,
      and the link error of the last submission. */
  class BuildUpload {
    var files: seq<File>
    var link: string
    var file: Option<File>
    var linkError: Option<string>

    constructor()
      ensures files == [] && link == "" && file == None && linkError == None
    {
      files := [];
      link := "";
      file := None;
      linkError := None;
    }

    /** Typing in the link field. */
    method EditLink(v: string)
      modifies this`link
      ensures link == v
    {
      link := v;
    }

    /** The effect on `files`: the first dropped file becomes the form's
        file; an empty list leaves the file as it was. */
    method FilesEffect()
      modifies this`file
      ensures |files| > 0 ==> file == Some(files[0])
      ensures |files| == 0 ==> file == old(file)
    {
      if |files| > 0 {
        file := Some(files[0]);
      }
    }

    /** The drop zone's `onDrop`: the list is replaced, then its effect
        runs. */
    method DropFiles(dropped: seq<File>)
      modifies this`files, this`file
      ensures files == dropped
      ensures |dropped| > 0 ==> file == Some(dropped[0])
      ensures |dropped| == 0 ==> file == old(file)
    {
      files := dropped;
      FilesEffect();
    }

    /** `resetUpload`: no file and no dropped files. */
    method ResetUpload()
      modifies this`files, this`file
      ensures file == None && files == []
    {
      file := None;
      files := [];
      FilesEffect();
    }

    /** A press of Submit: the link validator's verdict is recorded, and the
        handler's choice is returned when the validator passes. */
    method Submit() returns (r: Option<Source>)
      modifies this`linkError
      ensures linkError == ValidateLink(link)
      ensures r == OnSubmit(link, file)
    {
      linkError := ValidateLink(link);
      if linkError == None {
        r := Some(SubmissionSource(link, file));
      } else {
        r := None;
      }
    }

    /** Submit is disabled exactly when a submission would have no source. */
    function SubmitDisabled(): (r: bool)
      reads this
      ensures r <==> SubmissionSource(link, file) == NoSource
    {
      link == "" && file == None
    }
  }
}
