# Slow-reveal slide builder: a Dafny model of its core

The builder lets an author take an image, draw rectangular selections over
it, attach a feature label, title and description to each selection, and
export a self-contained HTML page that reveals the selections one slide at a
time. This project models and proves properties of the logic at its core:

- **Export renderer** (`Preview`): the embed template with its seven `{token}`
  placeholders. The page is built by seven global replacement passes, in the
  order title, sitetitle, imageURL, aspect, GraphArea, descriptions, coords.
  It carries three per-slide lists, each joined by `||`: feature labels,
  descriptions (a single space for a missing or empty one) and
  `startX,startY,endX,endY` entries. The panel state (`PreviewPanel`) holds
  the generated page and regenerates it only for a project with slides.
- **Pointer selection** (`PointerViewer`, the builder's image viewer): the
  press point, the current point and the shared `selection`. It covers the
  drag effect that commits a selection on release, the mouse-up spread,
  reset, the reset-request effect and the highlight drawn during a drag.
- **Keyboard selection** (`KeyboardViewer`, the generation tool's image
  viewer): a rectangle moved or resized by the arrow keys in steps of 0.01.
  Leaving a mode commits it, the pointer commit is gated by keyboard mode,
  and reset restores the default rectangle in keyboard mode. Key handling
  takes the exit comparison as a parameter, either as written or corrected
  for the spacebar (see Findings).
- **Upload** (`Upload`, `UploadForm`, `BuildPage`): the unanchored,
  case-insensitive image-link pattern
  `/(https?:\/\/.*\.(?:png|jpg|jpeg|gif|png|svg))/i`. It is written as an
  explicit predicate and decided by a scan proved equivalent to it. Also
  covered: the link and title validators, the 0..2 stepper, the dropped-files
  effect, `resetUpload`, the link-before-file submission rule and the
  disabled rules of the buttons.
- **Slide form** (`CardForm`): the feature and title validators, the overlay
  that blocks the form while the selection is inactive, and a save that
  never touches the slides.

Supporting modules:
- `Text`: the JavaScript string operations involved (join, split, global
  literal replacement, trim, ASCII case folding).
- `Selection`: points, the two shapes of the `selection` object, and the
  drawn highlight.
- `Project`: slides and the project.
- `Wrappers`: `Option`.

React state is modelled as class fields, event handlers as methods, and each
effect as a method run when its dependency changes. Hook outputs (`useMove`'s
`active` flag and position, `useMouse`'s coordinates, `useElementSize`'s size,
key events) are method parameters. JavaScript's number-to-string conversion
is the function parameter `show`. Coordinates are exact reals.

## Model

| member | source | states |
|---|---|---|
| `Preview.IndexMarkup` | components/Preview.js:69-109 | Holds verbatim the literal markup of the embed template between its placeholders. It has no contract; `Preview.TemplateShaped` states the template's shape. |
| `Preview.PieceAt` | components/Preview.js:69-109 | The template as 29 pieces: literal markup interleaved with the placeholders `{sitetitle}`, `{imageURL}`, `{title}`, `{aspect}`, `{GraphArea}`, `{descriptions}`, `{coords}`, in that order. It is a definition; `Preview.TemplateShaped` and `Preview.EveryTokenPassed` state its properties. |
| `Preview.Export` | components/Preview.js:113-156 | The exported page: the rendered template after the seven passes in order. It is a definition; `Preview.ExportPlacesValues` states what it contains. |
| `Preview.DescriptionText` | components/Preview.js:129 | A slide's description entry is its description when that is present and non-empty, and a single space otherwise. It is never empty. |
| `Preview.CoordEntry` | components/Preview.js:130-137 | A slide's coordinate entry is its four stored fields (startX, startY, endX, endY) joined by `,`. |
| `Preview.PreviewPanel.constructor` | components/Preview.js:65-163 | `index` spells the embed template with its placeholders and the stored page starts as `''`. The regeneration effect then runs once with the project at mount: with slides the panel holds the exported page and no placeholder, without slides it holds `''` and shows the placeholder. |
| `Preview.PreviewPanel.GenerateHtml` | components/Preview.js:113-156 | The stored page is the template after the seven passes in source order; the three lists are built by `BuildLists`. |
| `Preview.BuildLists` | components/Preview.js:122-151 | The `forEach` loop builds exactly the `||`-joined feature, description and coordinate lists: each entry is followed by `||` except the last. |
| `Preview.PreviewPanel.ProjectChanged` | components/Preview.js:159-163 | A project with at least one slide makes the stored page the exported page, which is non-empty, so the placeholder is no longer shown; a project with no slides leaves the stored page as it was. |
| `Preview.PassesInOrder` | components/Preview.js:115-154 | The pass sequence is title, sitetitle, imageURL, aspect, GraphArea, descriptions, coords, one global replacement each. |
| `Preview.PassFillsHole` | components/Preview.js:115 | One global replacement pass over a template with brace-free literal text fills exactly that token's placeholders and leaves the other placeholders intact. |
| `Preview.PassOverPiece` | components/Preview.js:115 | A pass changes a template piece only when the piece is its own token. Literal text and other tokens pass through unchanged. |
| `Preview.BracedPassesThrough` | components/Preview.js:115-154 | Replacing one `{token}` never matches inside or across another `{token}`. |
| `Preview.TokenTextInjective` | components/Preview.js:73-107 | Distinct placeholders have distinct texts. |
| `Preview.PassesFillTemplate` | components/Preview.js:115-154 | When literal text and values hold no `{`, passes covering every placeholder replace every occurrence of every token by its value, in whatever order. |
| `Preview.EveryTokenPassed` | components/Preview.js:73-107 | Every placeholder of the template has a pass. |
| `Preview.TemplateShaped` | components/Preview.js:69-109 | The template opens with `<html>`. `{sitetitle}` sits inside `<title>…</title>`, `{imageURL}` inside `src="…"`, and `{title}` right after the headline's opening tag. `{aspect}` and the three list tokens each sit in their own hidden data `div`. |
| `Preview.ExportPlacesValues` | components/Preview.js:73-154 | The exported page is the template with every placeholder filled. The project title appears in both `<title>` and the `<h1>` headline. `project.image` appears as the image `src` and `project.aspect` in the aspect element. The three lists appear in their data elements. |
| `Preview.FilledPlacesScalars` | components/Preview.js:73-120 | In the filled template the title, image link and aspect ratio sit between the markup around their placeholders. |
| `Preview.FilledPlacesLists` | components/Preview.js:105-107 | In the filled template the feature, description and coordinate lists sit inside their hidden data elements. |
| `Preview.FilledRunAppears` | components/Preview.js:115-154 | Any run of consecutive template pieces appears, filled, in the filled page. |
| `Preview.ExportStartsWithTag` | components/Preview.js:69 | An exported page starts with `<`, whatever the project, so a regenerated page is never `''`. |
| `Preview.ListsSplitBack` | components/Preview.js:125-154 | Assumes no field contains `\|`. Then each list's k-th entry is slide k's label, its description (or `" "` when missing or empty) and its coordinate entry. Each list holds exactly n-1 `\|\|` separators, and splitting on `\|\|` gives back the n entries in slide order. |
| `Preview.CoordEntrySplitsBack` | components/Preview.js:130-149 | A coordinate entry splits on `,` into startX, startY, endX, endY in stored order, never sorted, so a backwards drag's swapped corners survive. |
| `Preview.ApplyPassesKeepsHead` | components/Preview.js:115-154 | Replacement passes never change the first character of a page that does not start with `{`. |
| `Preview.CoordEntryAvoidsPipe` | components/Preview.js:130-149 | A coordinate entry contains no `\|` when the number formatting never produces one. |
| `Preview.ReorderedSeparable` | components/Preview.js:125-151 | Reordering slides keeps every field free of `\|`, so the reordered lists split back too. |
| `Preview.ReorderReordersLists` | components/Preview.js:125-154 | Reordering the slides reorders each list's entries the same way, without changing any entry or their number. |
| `Preview.ReorderedEntries` | components/Preview.js:125-151 | The per-slide entries of reordered slides are the reordered entries. |
| `Preview.PipeInLabelBreaksRoundTrip` | components/Preview.js:139 | Keeping `\|\|` out of every field is not enough for the round trip: the labels `a\|` and `b` export as `a\|\|\|b`, which splits into `a` and `\|b`. |
| `Text.Join` | components/Preview.js:125-151 | `Array.prototype.join`: the entries in order, with the separator between consecutive ones. It is a definition; `Text.SplitJoin`, `Text.JoinSplit` and `Text.JoinCount` relate it to `Split`. |
| `Text.Split` | components/Preview.js:125-151 | `String.prototype.split` on a literal separator, cutting at each leftmost non-overlapping occurrence. It always yields at least one piece. |
| `Text.JoinSplit` | components/Preview.js:125-151 | Joining the pieces of a split with its separator gives the text back. |
| `Text.ReplaceAll` | components/Preview.js:115-154 | `replace` with a global literal pattern: each leftmost non-overlapping occurrence is replaced. It is a definition; `Text.ReplaceAllIsSplitJoin` and `Text.ReplaceAllWithoutMatch` state its behaviour. |
| `Text.ReplaceAllWithoutMatch` | components/Preview.js:115-154 | A text without an occurrence of the pattern is left unchanged by a pass. |
| `Text.SplitJoin` | components/Preview.js:125-151 | Joining entries free of the separator's first character and then splitting gives the entries back. |
| `Text.JoinCount` | components/Preview.js:125-151 | Such a join holds exactly one separator fewer than it has entries. |
| `Text.ReplaceAllIsSplitJoin` | components/Preview.js:115 | A global literal replacement equals splitting on the pattern and joining with the value. |
| `Text.SplitLength` | components/Preview.js:125-151 | Splitting on a non-empty separator yields one more piece than the separator's occurrences. |
| `Text.TrimStart` | components/build_dependencies/CardForm.js:64 | `trimStart()` drops exactly the leading JavaScript white space: the result is a suffix that does not start with white space. |
| `Text.TrimEnd` | components/build_dependencies/CardForm.js:64 | `trimEnd()` drops exactly the trailing JavaScript white space: the result is a prefix that does not end with white space. |
| `Text.LowerAll` | components/build_dependencies/Form.js:48 | The case-insensitive flag folds each ASCII capital letter to its lower-case letter, character by character, and leaves every other character as it is. |
| `Text.Trim` | components/build_dependencies/CardForm.js:64 | `trim()` is no longer than its input and has no white space at either end. A text with no white space at either end is returned unchanged. |
| `Text.TrimEmptyIffBlank` | components/build_dependencies/CardForm.js:64 | `trim()` leaves nothing exactly when every character is JavaScript white space. |
| `PointerViewer.PointerSelector.constructor` | components/build_dependencies/ImageViewer.js:54-98 | At mount both points are at the origin and the toggles are off. The drag effect then keeps the selection, and a raised reset request clears it. |
| `PointerViewer.PointerSelector.DragEffect` | components/build_dependencies/ImageViewer.js:66-82 | While the pointer is held, the selection is the inactive all-zero box. On release it is committed as the active corner pair of the press and current points, unless all four values are 0, in which case it is unchanged. It runs only while unlocked, since the lock's overlay (line 104) keeps the pointer away. |
| `PointerViewer.ReleaseCommitsUnlessUntouched` | components/build_dependencies/ImageViewer.js:69-79 | A release commits an active selection exactly when the points are not both at the origin. Start comes from the press point and end from the current point, unordered; otherwise the selection is left as it was. |
| `PointerViewer.CommitMatchesHighlight` | components/build_dependencies/ImageViewer.js:72-79 | The committed rectangle covers on each axis exactly the interval the drag highlight covered. |
| `PointerViewer.PointerSelector.MouseDown` | components/build_dependencies/ImageViewer.js:115-120 | The press point becomes (mouseX/width, mouseY/height); nothing else changes. It is reachable only while unlocked. |
| `PointerViewer.PointerSelector.PointerMoved` | components/build_dependencies/ImageViewer.js:57 | `useMove` reports the pointer position as the current point; nothing else changes. It is reachable only while unlocked. |
| `PointerViewer.PointerSelector.MouseUp` | components/build_dependencies/ImageViewer.js:121-126 | Writing `{active: true, ...selection}` leaves the selection unchanged, because the spread's own `active` wins. It is reachable only while unlocked. |
| `PointerViewer.SpreadActive` | components/build_dependencies/ImageViewer.js:122-125 | The spread yields the selection itself. |
| `PointerViewer.PointerSelector.ResetSelection` | components/build_dependencies/ImageViewer.js:84-91 | The selection becomes the inactive all-zero corners, both points return to the origin, and the lock ends released whatever it was. |
| `PointerViewer.PointerSelector.SelectionResetEffect` | components/build_dependencies/ImageViewer.js:93-98 | A raised reset flag resets the selection and is lowered; a lowered flag changes nothing. |
| `Selection.DrawnHighlight` | components/build_dependencies/ImageViewer.js:128-148 | The drawn box covers exactly the interval between press and current point on each axis. A backwards drag is anchored from the right or bottom edge, a forward one from the left or top. |
| `PointerViewer.PointerSelector.Highlight` | components/build_dependencies/ImageViewer.js:128-148 | The highlight's extent on each axis is [min, max] of the press and current points. Its width is the absolute difference, anchored from the right or bottom for a backwards drag. |
| `PointerViewer.PointerSelector.ToggleLock` | components/build_dependencies/ImageViewer.js:178 | The lock flips and nothing else changes. |
| `PointerViewer.PointerSelector.ToggleView` | components/build_dependencies/ImageViewer.js:167 | The view flag flips and nothing else changes. |
| `KeyboardViewer.KeyboardSelector.constructor` | generation-tool/components/build_dependencies/ImageViewer.js:58-133 | The keyboard rectangle starts at (0.05, 0.05, 0.15, 0.15) with both modes off. The mode effects at mount commit it as the active selection, unless a raised reset request clears it. |
| `KeyboardViewer.MoveStep` | generation-tool/components/build_dependencies/ImageViewer.js:84-115 | In move mode a key never changes width, height or `active`. ArrowLeft and ArrowRight leave the y edges alone, ArrowUp and ArrowDown leave the x edges alone, and a non-arrow key changes nothing. The step sizes per direction are given by `MoveStepsShift` and `MoveStepsLeft`. |
| `KeyboardViewer.ResizeStep` | generation-tool/components/build_dependencies/ImageViewer.js:142-169 | In resize mode a key never moves startX, startY or `active`. ArrowLeft and ArrowRight leave endY alone, ArrowUp and ArrowDown leave endX alone, and a non-arrow key changes nothing. The step sizes are given by `ResizeStepsWiden` and `ResizeStepsLeft`. |
| `KeyboardViewer.MoveStepsShift` | generation-tool/components/build_dependencies/ImageViewer.js:92-115 | n presses of ArrowRight or ArrowDown in move mode shift the rectangle by n steps along that axis and leave the other axis alone. |
| `KeyboardViewer.ResizeStepsWiden` | generation-tool/components/build_dependencies/ImageViewer.js:149-169 | n presses of ArrowRight or ArrowDown in resize mode move the end edge by n steps. |
| `KeyboardViewer.OppositeStepsCancel` | generation-tool/components/build_dependencies/ImageViewer.js:84-169 | Opposite arrow keys undo each other, in both modes. |
| `KeyboardViewer.MoveResizeCommute` | generation-tool/components/build_dependencies/ImageViewer.js:80-187 | When both listeners hear a key, the rectangle is the same whichever runs first. |
| `KeyboardViewer.NoClamping` | generation-tool/components/build_dependencies/ImageViewer.js:84-169 | No clamping: six ArrowLeft moves take the default rectangle past the left edge, and eleven ArrowLeft resizes put its end before its start. |
| `KeyboardViewer.MoveStepsLeft` | generation-tool/components/build_dependencies/ImageViewer.js:84-107 | n ArrowLeft moves lower both x edges by n steps and leave the y edges; n ArrowUp moves lower both y edges by n steps and leave the x edges. |
| `KeyboardViewer.ResizeStepsLeft` | generation-tool/components/build_dependencies/ImageViewer.js:142-162 | n ArrowLeft resizes lower only endX by n steps; n ArrowUp resizes lower only endY by n steps. |
| `KeyboardViewer.IsExitKeyAsWritten` | generation-tool/components/build_dependencies/ImageViewer.js:116 | The handlers' exit test as written: `Escape`, `Enter` or `Space`. No exit key is an arrow key, and the spacebar's key value `" "` is not an exit key. |
| `KeyboardViewer.IsExitKey` | generation-tool/components/build_dependencies/ImageViewer.js:256 | The corrected exit test: `Escape`, `Enter` or the spacebar's `" "`, as the on-screen instruction intends. No exit key is an arrow key. |
| `KeyboardViewer.SpacebarDoesNotConfirm` | generation-tool/components/build_dependencies/ImageViewer.js:116-118 | As written, the spacebar (key value `" "`) neither leaves a mode nor moves the rectangle. The corrected exit test accepts it and agrees with the written one on every other key except `"Space"`. |
| `KeyboardViewer.SpacebarInMoveMode` | generation-tool/components/build_dependencies/ImageViewer.js:116-132 | From the mounted viewer, after keyboard selection is switched on, move mode is turned on and ArrowRight is pressed once. Then the spacebar is pressed. As written, move mode stays on and the selection still holds the rectangle committed at mount. With the intended test, move mode ends and the moved rectangle (0.06, 0.05, 0.16, 0.15) is committed. |
| `KeyboardViewer.KeyboardSelector.KeyDown` | generation-tool/components/build_dependencies/ImageViewer.js:80-187 | The move listener (if installed) then the resize listener (if installed) update the rectangle. An exit key turns off each mode that heard it; other keys leave the flags alone. The exit test is a parameter: `AsWritten` is the program's comparison with `'Space'` (lines 116 and 170), `Intended` the corrected one with `' '`. |
| `KeyboardViewer.KeyboardSelector.PressKey` | generation-tool/components/build_dependencies/ImageViewer.js:80-187 | A key press with its mode effects. In each active mode an arrow key moves or resizes the rectangle as `MoveStep`/`ResizeStep` say. An exit key in an active mode leaves that mode and commits the rectangle as the active selection; otherwise the selection is unchanged. The exit test is `AsWritten` (lines 116 and 170) or `Intended`, as for `KeyDown`. |
| `KeyboardViewer.KeyboardSelector.MoveModeEffect` | generation-tool/components/build_dependencies/ImageViewer.js:124-132 | With move mode off the selection becomes the active rectangle's four coordinates; with it on nothing changes. |
| `KeyboardViewer.KeyboardSelector.ResizeModeEffect` | generation-tool/components/build_dependencies/ImageViewer.js:178-186 | With resize mode off the selection becomes the active rectangle's four coordinates; with it on nothing changes. |
| `KeyboardViewer.KeyboardSelector.ToggleKeyboardMove` | generation-tool/components/build_dependencies/ImageViewer.js:286-306 | The move button exists only while keyboard selection is on. It flips move mode, and turning it off commits the rectangle. |
| `KeyboardViewer.KeyboardSelector.ToggleKeyboardResize` | generation-tool/components/build_dependencies/ImageViewer.js:286-309 | The resize button exists only while keyboard selection is on. It flips resize mode, and turning it off commits the rectangle. |
| `KeyboardViewer.KeyboardSelector.ToggleKeyboard` | generation-tool/components/build_dependencies/ImageViewer.js:250 | The keyboard switch flips; the modes and the rectangle are untouched. |
| `KeyboardViewer.KeyboardSelector.DragEffect` | generation-tool/components/build_dependencies/ImageViewer.js:196-214 | In keyboard mode the pointer changes nothing. Otherwise the drag marks the selection inactive, and release commits start and end unless all four values are 0. |
| `KeyboardViewer.KeyboardSelector.MouseDown` | generation-tool/components/build_dependencies/ImageViewer.js:273-278 | The press point becomes (mouseX/width, mouseY/height). |
| `KeyboardViewer.KeyboardSelector.PointerMoved` | generation-tool/components/build_dependencies/ImageViewer.js:61 | `useMove` reports the pointer position as the current point. |
| `KeyboardViewer.KeyboardSelector.MouseUp` | generation-tool/components/build_dependencies/ImageViewer.js:279-284 | The spread leaves the selection unchanged. |
| `KeyboardViewer.KeyboardSelector.ResetSelection` | generation-tool/components/build_dependencies/ImageViewer.js:216-233 | Reset zeroes the selection and makes it inactive. In keyboard mode it restores the default rectangle, marked active; otherwise it zeroes both pointer points. The lock always ends released. |
| `KeyboardViewer.KeyboardSelector.SelectionResetEffect` | generation-tool/components/build_dependencies/ImageViewer.js:235-240 | A raised reset flag resets and is lowered; a lowered flag changes nothing. |
| `KeyboardViewer.KeyboardSelector.ToggleLock` | generation-tool/components/build_dependencies/ImageViewer.js:372 | The lock flips. |
| `KeyboardViewer.KeyboardSelector.ToggleView` | generation-tool/components/build_dependencies/ImageViewer.js:358 | The view flag flips. |
| `Upload.IsImageLink` | components/build_dependencies/Form.js:48 | The regular expression's `test`: after ASCII lower-casing, some `http://` or `https://` is followed, on the same line, by a `.` and one of png, jpg, jpeg, gif, svg. The match is unanchored. This is the specification that `Upload.MatchesImageLink` decides. |
| `Upload.ExtensionOnLineIff` | components/build_dependencies/Form.js:48 | The line scan finds a dot-and-extension exactly when one follows on the same line (`.*` stops at line terminators). |
| `Upload.SchemeOnwardIff` | components/build_dependencies/Form.js:48 | The scheme scan from a position succeeds exactly when the pattern matches at or after that position. |
| `Upload.SchemeOnwardFinds` | components/build_dependencies/Form.js:48 | Whatever the scan accepts is a match. |
| `Upload.MatchFoundOnward` | components/build_dependencies/Form.js:48 | The scan finds every match starting at or after its position. |
| `Upload.MatchesImageLink` | components/build_dependencies/Form.js:48 | The executable test decides the pattern: true exactly for text that, after ASCII lower-casing, contains `http://` or `https://`, later a `.` on the same line, then png, jpg, jpeg, gif or svg. |
| `Upload.ValidateLink` | components/build_dependencies/Form.js:45-52 | An empty link is no error; a non-empty link is no error exactly when it matches the pattern, and otherwise the error is `Invalid link`. |
| `Upload.QueryStringAccepted` | components/build_dependencies/Form.js:48 | The pattern is unanchored, so text before the scheme and a query string after `.png` are accepted. |
| `Upload.LongerExtensionAccepted` | components/build_dependencies/Form.js:48 | `.svgz` passes, because `svg` only has to start the text after the dot. |
| `Upload.UpperCaseAccepted` | components/build_dependencies/Form.js:48 | The `i` flag makes `HTTP://X.JPEG` pass. |
| `Upload.RejectedExamples` | components/build_dependencies/Form.js:48 | A line break between scheme and dot, or an `ftp://` scheme, fails the pattern. |
| `Upload.SubmissionSource` | components/build_dependencies/Form.js:77-85 | A non-empty link is taken even when a file was dropped; the file only without a link; otherwise nothing. |
| `Upload.LinkWinsOverFile` | components/Build.js:70-74 | Once a link is typed, the dropped file does not change the submission. |
| `UploadForm.Validate` | components/build_dependencies/Form.js:44-59 | Step 0 reports only the link, with `Invalid link`; step 1 only the title, with `Title is required`; other steps nothing. There are errors exactly when step 0 has a non-empty non-matching link, or step 1 has an empty title. |
| `UploadForm.TitleError` | components/build_dependencies/Form.js:56 | The title fails exactly when it is empty, with no trimming. |
| `UploadForm.BlankTitleAccepted` | components/build_dependencies/Form.js:56 | The step-1 title check accepts every non-empty title made only of white space, because it does not trim. If `nextStep`'s updater ran on step 1 with such a title, it would move on. |
| `UploadForm.BlankTitleEnablesSubmit` | components/build_dependencies/Form.js:241 | On step 1 such a title leaves the Submit button enabled, so the project is handed on with a blank title. This is the path the form actually takes. |
| `UploadForm.NextStepOf` | components/build_dependencies/Form.js:102-108 | Next advances by one exactly when validation passes and the step is below 2; otherwise the step stays. It stays within 0..2. |
| `UploadForm.PrevStepOf` | components/build_dependencies/Form.js:110 | Back goes down by one exactly when the step is above 0, and stays within 0..2. |
| `UploadForm.WalkStaysInRange` | components/build_dependencies/Form.js:102-110 | After any sequence of Next and Back presses the step is still within 0..2. |
| `UploadForm.AdvanceRule` | components/build_dependencies/Form.js:101-108 | `nextStep`'s updater, run after `validate()` on a step, leaves step 0 exactly when the link is empty or an image link, and leaves step 1 exactly when a title is typed. It never leaves step 2. The form's only Next button is on step 0. |
| `UploadForm.UploadStepper.constructor` | components/build_dependencies/Form.js:34-42 | At mount: no files, step 0, empty link and title, no file. |
| `UploadForm.UploadStepper.NextStep` | components/build_dependencies/Form.js:102-108 | The errors of the current step are recorded, and the step advances only when there are none. |
| `UploadForm.UploadStepper.PrevStep` | components/build_dependencies/Form.js:110 | The step moves back one, never below 0. |
| `UploadForm.UploadStepper.FilesEffect` | components/build_dependencies/Form.js:62-67 | A non-empty dropped list makes its first file the form's file; an empty list leaves the file as it was. |
| `UploadForm.UploadStepper.DropFiles` | components/build_dependencies/Form.js:132 | Dropping replaces the list, then the files effect runs. |
| `UploadForm.UploadStepper.ResetUpload` | components/build_dependencies/Form.js:69-72 | `resetUpload` leaves no file and an empty list. |
| `UploadForm.UploadStepper.HandleUploadSubmission` | components/build_dependencies/Form.js:74-86 | The title always goes to the parent. A link sets submitted and the image URL; a file alone sets submitted only; with neither, submitted and the image URL stay as they were. |
| `UploadForm.UploadStepper.NextDisabled` | components/build_dependencies/Form.js:192 | Next is disabled exactly when the link is `''` and there is no file, that is, when a submission would have no source. |
| `UploadForm.UploadStepper.SubmitDisabled` | components/build_dependencies/Form.js:241 | Submit is disabled exactly when the title is `''`, which is exactly when step 1's check objects. |
| `UploadForm.UploadStepper.EditLink` | components/build_dependencies/Form.js:128 | Typing sets the link. |
| `UploadForm.UploadStepper.EditTitle` | components/build_dependencies/Form.js:225 | Typing sets the title. |
| `BuildPage.OnSubmit` | components/Build.js:50-75 | Submit reaches the handler exactly when the link is empty or an image link. The handler takes the link before the file. |
| `BuildPage.SubmittedLinkIsImageLink` | components/Build.js:50-75 | A non-empty link that reaches the handler is an image link and is taken even when a file is present. |
| `BuildPage.NothingWithoutSource` | components/Build.js:69-75 | If the handler is called with neither link nor file, it chooses nothing. The page's Submit button is disabled in that state (`BuildPage.BuildUpload.SubmitDisabled`). |
| `BuildPage.BuildUpload.constructor` | components/Build.js:42-48 | At mount: no files, empty link, no file. |
| `BuildPage.BuildUpload.Submit` | components/Build.js:50-75 | A submit records the link validator's verdict and yields the handler's choice when the link is valid. |
| `BuildPage.BuildUpload.FilesEffect` | components/Build.js:58-62 | A non-empty dropped list makes its first file the form's file; an empty list leaves it as it was. |
| `BuildPage.BuildUpload.DropFiles` | components/Build.js:120 | Dropping replaces the list, then the files effect runs. |
| `BuildPage.BuildUpload.ResetUpload` | components/Build.js:64-67 | `resetUpload` leaves no file and an empty list. |
| `BuildPage.BuildUpload.SubmitDisabled` | components/Build.js:181 | Submit is disabled exactly when the link is `''` and there is no file. |
| `BuildPage.BuildUpload.EditLink` | components/Build.js:116 | Typing sets the link. |
| `CardForm.FeatureError` | components/build_dependencies/CardForm.js:63 | The feature label is valid exactly when non-empty, untrimmed. |
| `CardForm.TitleError` | components/build_dependencies/CardForm.js:64 | The title is valid exactly when it has a character that is not JavaScript white space, i.e. its trimmed length is positive. |
| `CardForm.Validate` | components/build_dependencies/CardForm.js:62-65 | The two validators apply field by field. |
| `CardForm.DescriptionUnchecked` | components/build_dependencies/CardForm.js:56-66 | The description never affects validation. |
| `CardForm.InitialValuesRejected` | components/build_dependencies/CardForm.js:57-64 | The untouched form fails both validators. |
| `CardForm.BlankFeatureButNotTitle` | components/build_dependencies/CardForm.js:63-64 | Every non-empty value made only of JavaScript white space passes as a feature label, which is not trimmed, and fails as a title, which is. |
| `CardForm.SpaceFeatureButNotTitle` | components/build_dependencies/CardForm.js:63-64 | `" "` is such a value: it passes as a feature label but not as a title. |
| `CardForm.OverlayVisible` | components/build_dependencies/CardForm.js:71-73 | The overlay is visible exactly when the selection is inactive. |
| `CardForm.Save` | components/build_dependencies/CardForm.js:89 | Save hands the values to the handler exactly when both validators pass. The handler only logs them, and the slides are unchanged. |

## Left out

- Browser and library I/O. Not modelled: object URLs for previews, the
  `window` key listeners' registration, logging, iframe and syntax-highlight
  rendering, and the form library's internals beyond validate-then-submit.
  Hook outputs and events are method parameters.
- Floating point. Coordinates and the 0.01 steps are exact reals, so no
  claim is made about IEEE rounding (e.g. that width is preserved bit for
  bit).
- Number formatting. JavaScript's number-to-string conversion is the
  parameter `show`. It is assumed free of `|` where lists are split back, and
  free of `,` where a coordinate entry is split back.
- `$` patterns in replacement strings. Replacement is literal, and values
  are assumed to hold no `{` where the page is proved to be the filled
  template (`ValuesPlain`).
- Preview.ExportPlacesValues: takes `PlainPieces` (no `{` in the template's
  literal markup) as a hypothesis and does not prove it. The markup is held
  verbatim in `IndexMarkup` and has no `{` outside its placeholders, but the
  solver cannot decide character membership in literals that long.
- Unreachable upload steps: the form's only Next button is on step 0, and
  step 1's Submit calls `handleUploadSubmission` without `validate()`. From
  the UI, step 2 and the step-1 title check are therefore never reached.
  `UploadForm.NextStepOf`, `UploadForm.AdvanceRule` and the walk lemmas
  describe `nextStep`'s updater itself.
- Preview.PreviewPanel.ProjectChanged: the regenerated page is stated
  against `Export`. Its content is described by `Preview.ExportPlacesValues`
  only under the brace-freeness hypotheses above.
- Effect scheduling. React's batching and ordering are not modelled; each
  effect is a method the model runs when its dependency changes.
- PointerViewer.PointerSelector.MouseDown and
  KeyboardViewer.KeyboardSelector.MouseDown require a positive element
  size. Division by zero (Infinity or NaN in JavaScript) is not modelled.
- The highlight's pixel offsets (`- 1px`, `+ 2px`) and percentage
  formatting: only the fractional extents are modelled.
- The lock: its overlay stops every pointer event, so the pointer
  handlers and drag effects of both viewers require `!locked`, and the
  model does not say what a locked click would do. The view toggle's
  styling is not modelled, only its flag.
- Slide collection: appending, updating, removing, reordering and the edit
  session are not implemented in the modelled files. The reorder is done
  by an unseen list library. `Preview.Reordered` states only what any
  reordering does to the exported lists.
- UI-only files: navigation, about and overview pages, app shell, document,
  the onboarding tour and the drag-and-drop list. Out of scope.
- Browser end-to-end test files: they target later revisions of the
  components, so they are not used as contracts.
- The stats panel's display (which prints `endY` twice): display only.
- The Build page's Submit handler only logs; its result is modelled as the
  chosen source.

## Findings

| source | as written | input that shows it | evidently intended | confidence | as-written member | corrected member |
|---|---|---|---|---|---|---|
| generation-tool/components/build_dependencies/ImageViewer.js:116 | The move and resize key handlers (lines 116 and 170) leave their mode on `e.key === 'Space'`. | A press of the spacebar, whose `KeyboardEvent.key` is `" "`: it neither leaves the mode nor commits the rectangle. | The spacebar confirms, as the on-screen text at line 256 says, so the test should be `e.key === ' '`. | not executed | `KeyboardViewer.SpacebarDoesNotConfirm`, `KeyboardViewer.SpacebarInMoveMode` (keys AsWritten) | `KeyboardViewer.IsExitKey`, `KeyboardViewer.SpacebarInMoveMode` (keys Intended) |
