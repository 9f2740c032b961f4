/** The slide form beside the image: a feature label, a title and a
    description for the selected area, two validators, and an overlay that
    blocks the form until a selection is active. */
module CardForm {
  import opened Wrappers
  import opened Text
  import opened Selection
  import opened Project

  /** The form's values. */
  datatype SlideValues = SlideValues(graphicalFeature: string, title: string, description: string)

  /** Every field starts empty. */
  const InitialValues: SlideValues := SlideValues("", "", "")

  /** The validators' verdicts; `description` has no validator. */
  datatype SlideErrors = SlideErrors(graphicalFeature: Option<string>, title: Option<string>)

  /** The feature label must be non-empty; white space counts. */
  function FeatureError(v: string): (r: Option<string>)
    ensures r == None <==> |v| > 0
    ensures r != None ==> r == Some("Graphical feature is required")
  {
    if |v| > 0 then None else Some("Graphical feature is required")
  }

  /** The title must keep some character after `trim()`: it is accepted
      exactly when some character of it is not JavaScript white space. */
  function TitleError(v: string): (r: Option<string>)
    ensures r == None <==> exists i :: 0 <= i < |v| && !IsJsWhitespace(v[i])
    ensures r != None ==> r == Some("Title is required")
  {
    TrimEmptyIffBlank(v);
    if |Trim(v)| > 0 then None else Some("Title is required")
  }

  function Validate(values: SlideValues): (r: SlideErrors)
    ensures r.graphicalFeature == None <==> |values.graphicalFeature| > 0
    ensures r.title == None <==> exists i :: 0 <= i < |values.title| && !IsJsWhitespace(values.title[i])
  {
    SlideErrors(FeatureError(values.graphicalFeature), TitleError(values.title))
  }

  /** The description never affects validation. */
  lemma DescriptionUnchecked(values: SlideValues, d: string)
    ensures Validate(values.(description := d)) == Validate(values)
  {
  }

  /** An untouched form fails both validators. */
  lemma InitialValuesRejected()
    ensures Validate(InitialValues) == SlideErrors(Some("Graphical feature is required"), Some("Title is required"))
  {
  }

  /** A label or title of white space only passes as a feature label, which
      is not trimmed, but not as a title, which is. */
  lemma BlankFeatureButNotTitle(v: string)
    requires |v| > 0 && forall i :: 0 <= i < |v| ==> IsJsWhitespace(v[i])
    ensures FeatureError(v) == None
    ensures TitleError(v) == Some("Title is required")
  {
  }

  /** A single space is such a value. */
  lemma SpaceFeatureButNotTitle()
    ensures FeatureError(" ") == None
    ensures TitleError(" ") == Some("Title is required")
  {
    assert IsJsWhitespace(" "[0]);
    BlankFeatureButNotTitle(" ");
  }

  /** The loading overlay covers the form exactly while the selection is
      inactive. */
  function OverlayVisible(selection: Selection): (r: bool)
    ensures r <==> !selection.active
  {
    match selection
    case Corners(a, _, _, _, _) => !a
    case Box(a, _, _, _, _) => !a
  }

  /** What a press of Save leaves behind: the values handed to the
      submission handler (which only logs them) and the slides. */
  datatype SaveOutcome = SaveOutcome(logged: Option<SlideValues>, slides: seq<Slide>)

  /** Save: the handler runs only when both validators pass, and it never
      touches the slides. */
  function Save(values: SlideValues, slides: seq<Slide>): (r: SaveOutcome)
    ensures r.logged.Some? <==> Validate(values) == SlideErrors(None, None)
    ensures r.logged.Some? ==> r.logged.value == values
    ensures r.slides == slides
  {
    if Validate(values) == SlideErrors(None, None) then SaveOutcome(Some(values), slides)
    else SaveOutcome(None, slides)
  }
}
