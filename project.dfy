/** The project the builder exports: the image, the title, the aspect ratio
    and the ordered slides, each slide a selection snapshot with its text. */
module Project {
  import opened Wrappers
  import opened Selection

  /** A slide's text: the feature label, and a description that may be
      missing. */
  datatype SlideData = SlideData(graphicalFeature: string, description: Option<string>)

  datatype Slide = Slide(id: int, selection: Selection, data: SlideData)

  /** `project`: image link, title, aspect ratio (a number) and the slides in
      presentation order. */
  datatype Project = Project(image: string, title: string, aspect: real, slides: seq<Slide>)
}
