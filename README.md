# TextEdit editing session and line-number gutter, in Dafny

A model of the core of a small macOS text editor (`TextEditController.swift`).
It covers two things.

The editing session is the `TextEditController` view controller and its
`Document`:
- the current document, with its location and dirty flag;
- the text in the text view;
- the line-number toggle and the ruler flags that follow it;
- the word-wrap flags of the text view, its text container and the scroll view;
- the zoom level;
- the window title.

Each menu action (New, Open..., Save, Save As..., Show Line Numbers, Word Wrap,
Zoom In/Out, Reset Zoom) is modelled as a method of the `Session.TextEditController`
class. The method changes the fields the Swift code changes, in place, and
nothing else.

The line-number gutter is `LineNumberRulerView.drawHashMarksAndLabels`:
- split the text on newline characters;
- give each line a label placed at `i * (11 + 4) + origin.y`;
- draw the label only if its frame intersects the rectangle being redrawn.

This is modelled as the loop method `Gutter.DrawHashMarksAndLabels`. The method
is proved equal to the specification function `Gutter.GutterMarks`, and the
lemmas about `GutterMarks` state what is drawn. The loop draws the corrected
label `Gutter.Label`, the decimal numeral of the 1-based line number. The label
as line 291 writes it is `Gutter.LabelAsWritten`, the same literal text
`\(lineNumber + 1)` on every line (see "## Findings").

Outside services are inputs of the action that uses them:
- the answer to the "Create New Document" alert (`AlertAnswer`);
- the file an open or save panel returns (`Option<Path>`, None when cancelled);
- the file contents decoded as UTF-8 (`Option<string>`, None when decoding fails);
- whether a write succeeded (`bool`).

Actions return the error alert they would show (`ErrorAlert`) and the write they
request (`Write`: path and text).

Files:
- `wrappers.dfy`: the Option type.
- `paths.dfy`: a stand-in for `lastPathComponent`, and the window title.
- `gutter.dfy`: line splitting, labels, label geometry and the drawing loop.
- `session.dfy`: zoom and word-wrap transitions as functions, and the
  `Document` and `TextEditController` classes.
- `scenarios.dfy`: short sessions from launch, written as client methods, that
  show the subtle behaviours.

## Behaviour pinned down

- The session invariant `Valid()` holds after every action:
  - the font size is an even value in [8, 72];
  - `hasVerticalRuler == rulersVisible == isShowingLineNumbers`;
  - the layout flags are either the launch flags or flags a toggle produced.
- `NoneDirty()`, no document marked as having unsaved changes, holds at
  launch and every action keeps it, because nothing in the code sets that
  flag. It is kept apart from `Valid()` so that the save actions are specified
  on a dirty document too: only a successful write clears the flag.
- The launch layout is inconsistent: word wrap is on, yet the horizontal
  scroller is shown. So two word-wrap toggles after launch do not restore
  the scroller.
- "Save As..." records the chosen location and updates the title even when the
  write fails. A later "Save" then writes to that location without a panel.
- "New" replaces the document and the text but does not refresh the title.
- A cancelled panel, a cancelled alert or a file that is not UTF-8 leaves the
  text, the document and the title unchanged.

- Zoom steps by 2 points, within [8, 72]. There is no zoom by an arbitrary
  delta.
- The gutter walks every line of the text, not only the visible range.
- The code has no edit operation and no stored line-offset index.

## Model

| member | source | states |
|---|---|---|
| `Paths.LastPathComponent` | Sources/TextEdit/TextEditController.swift:234 | the title component is the longest suffix of the path that contains no '/' |
| `Paths.LastPathComponentOfJoin` | Sources/TextEdit/TextEditController.swift:234 | for a file `name` written after a directory, the last path component is `name` |
| `Paths.TitleOfTmpTestTxt` | Sources/TextEdit/TextEditController.swift:233-236 | the title of "/tmp/test.txt" is "test.txt"; with no location the title is "Untitled" |
| `Gutter.Separators` | Sources/TextEdit/TextEditController.swift:279 | every separator collected from the text is a member of the newline character set |
| `Gutter.Lines` | Sources/TextEdit/TextEditController.swift:279 | splitting gives one more piece than there are newline characters |
| `Gutter.LinesHaveNoNewline` | Sources/TextEdit/TextEditController.swift:279 | no piece of the split contains a newline character |
| `Gutter.LinesUnsplit` | Sources/TextEdit/TextEditController.swift:279 | the pieces with the newline characters put back between them give back the original text |
| `Gutter.LinesOfLineThenBreak` | Sources/TextEdit/TextEditController.swift:279 | a newline-free line followed by a newline character is the first piece, and the rest is split on its own |
| `Gutter.LinesOfLine` | Sources/TextEdit/TextEditController.swift:279 | a newline-free text is a single piece |
| `Gutter.LinesOfEmptyAndCrLf` | Sources/TextEdit/TextEditController.swift:279 | the empty text gives one line; "\r\n" counts as two breaks and gives three lines |
| `Gutter.LinesOfThree` | Sources/TextEdit/TextEditController.swift:279 | three newline-free lines joined by two line breaks split back into exactly those three lines |
| `Gutter.LinesOfABbCcc` | Sources/TextEdit/TextEditController.swift:279 | "a\nbb\nccc" splits into "a", "bb", "ccc" |
| `Gutter.Decimal` | Sources/TextEdit/TextEditController.swift:291 | the numeral of a number is non-empty, all digits, and has no leading zero |
| `Gutter.DecimalRoundTrip` | Sources/TextEdit/TextEditController.swift:291 | reading the numeral of `n` back gives `n` |
| `Gutter.LabelsDistinct` | Sources/TextEdit/TextEditController.swift:291 | line `i`'s label reads back as `i + 1`, and two different lines never get the same label |
| `Gutter.AsWrittenLabelsCollide` | Sources/TextEdit/TextEditController.swift:291 | as written, every line gets the same 17-character label beginning with a backslash, unlike the intended "1", "2", ... |
| `Gutter.LabelYSpacing` | Sources/TextEdit/TextEditController.swift:294 | the first label is at origin.y, consecutive labels are 15 apart, and y is strictly increasing in the line number |
| `Gutter.DrawnLinesContiguous` | Sources/TextEdit/TextEditController.swift:294-302 | a line lying between two lines whose labels are drawn is drawn too |
| `Gutter.MarksSnoc` | Sources/TextEdit/TextEditController.swift:303 | drawing one more line appends exactly its mark at the end |
| `Gutter.DrawnLinesExactly` | Sources/TextEdit/TextEditController.swift:290-305 | a line is drawn exactly when it exists and its label frame intersects the redraw rectangle |
| `Gutter.DrawnLinesIncreasing` | Sources/TextEdit/TextEditController.swift:290-305 | lines are drawn in strictly increasing order |
| `Gutter.MarkOfInjective` | Sources/TextEdit/TextEditController.swift:289-294 | marks of different lines differ, because their frames sit at different heights |
| `Gutter.MarksMembership` | Sources/TextEdit/TextEditController.swift:295-304 | a line's mark is among the drawn marks exactly when the line is among the drawn lines |
| `Gutter.GutterDrawsExactlyIntersecting` | Sources/TextEdit/TextEditController.swift:279-305 | the gutter has newline count + 1 lines, and line `i`'s label is drawn exactly when `i` is below that count and its frame intersects the redraw rectangle |
| `Gutter.MarksDescend` | Sources/TextEdit/TextEditController.swift:290-305 | marks of lines in increasing order have strictly increasing y |
| `Gutter.MarkOfCaptioned` | Sources/TextEdit/TextEditController.swift:291-294 | a line's mark has an all-digit label that reads back as the 1-based line number its y encodes (`y = (label - 1) * 15 + origin.y`) |
| `Gutter.MarksCaptioned` | Sources/TextEdit/TextEditController.swift:291-294 | every mark in a drawn list satisfies that relation between its label and its y |
| `Gutter.GutterMarksOrdered` | Sources/TextEdit/TextEditController.swift:290-305 | drawn labels go top to bottom, and each carries the number of the line at its position |
| `Gutter.DrawnLinesEmpty` | Sources/TextEdit/TextEditController.swift:302 | no line is drawn into an empty rectangle |
| `Gutter.EmptyDirtyRectDrawsNothing` | Sources/TextEdit/TextEditController.swift:302 | an empty redraw rectangle draws nothing |
| `Gutter.DrawHashMarksAndLabels` | Sources/TextEdit/TextEditController.swift:275-306 | the loop draws exactly `GutterMarks` of the client text, with the corrected label `Label` (the label as written is `LabelAsWritten`, see "## Findings"); nothing is drawn when the client is not a text view |
| `Session.ZoomedIn` | Sources/TextEdit/TextEditController.swift:218-221 | zoom in never exceeds 72, keeps a valid size valid, is a no-op at 72, and otherwise adds 2 |
| `Session.ZoomedOut` | Sources/TextEdit/TextEditController.swift:223-226 | zoom out never goes below 8, keeps a valid size valid, is a no-op at 8, and otherwise subtracts 2 |
| `Session.ZoomAllStaysInRange` | Sources/TextEdit/TextEditController.swift:218-231 | any sequence of zoom commands keeps the font size an even value in [8, 72] |
| `Session.ZoomInRepeatedly` | Sources/TextEdit/TextEditController.swift:218-221 | `n` zoom-ins below the cap add `2n` |
| `Session.ZoomOutRepeatedly` | Sources/TextEdit/TextEditController.swift:223-226 | `n` zoom-outs above the floor subtract `2n` |
| `Session.EverySizeReachable` | Sources/TextEdit/TextEditController.swift:218-231 | every even size in [8, 72] is reached from 14 by repeated zoom-in or zoom-out |
| `Session.ToggledWrap` | Sources/TextEdit/TextEditController.swift:198-216 | a toggle negates `widthTracksTextView`; afterwards `isHorizontallyResizable == hasHorizontalScroller == !widthTracksTextView`, the container is unbounded exactly when wrap is off, and otherwise it is the viewport width |
| `Session.InitialLayoutInconsistent` | Sources/TextEdit/TextEditController.swift:28-45 | the launch flags show the horizontal scroller while wrap is on |
| `Session.TwoTogglesFromLaunchHideScroller` | Sources/TextEdit/TextEditController.swift:198-216 | two toggles after launch hide the scroller that launch showed, so they do not restore the launch flags |
| `Session.TwoTogglesRestoreToggledLayout` | Sources/TextEdit/TextEditController.swift:198-216 | on flags a toggle produced, two further toggles (the second at the same width) are the identity |
| `Session.Document.constructor` | Sources/TextEdit/TextEditController.swift:250-257 | a new document has the given location and no unsaved changes |
| `Session.TextEditController.constructor` | Sources/TextEdit/TextEditController.swift:13-45 | at launch: the welcome text, a document with no location, line numbers off, size 14, the launch layout flags, and the window's own title |
| `Session.TextEditController.CreateNewDocument` | Sources/TextEdit/TextEditController.swift:97-116 | a fresh document with no location and no unsaved changes, and the welcome text |
| `Session.TextEditController.NewDocument` | Sources/TextEdit/TextEditController.swift:120-131 | cancel changes nothing; confirm gives a fresh empty-location document and the welcome text; the title is never touched |
| `Session.TextEditController.OpenDocument` | Sources/TextEdit/TextEditController.swift:133-152 | a cancelled panel, or a decode failure (which also shows an error), leaves text, document and title unchanged; success installs the decoded text and a fresh document at the chosen path, and retitles the window |
| `Session.TextEditController.SaveToUrl` | Sources/TextEdit/TextEditController.swift:175-182 | requests a write of the text to the URL; on a document that may be dirty, only a successful write clears the dirty flag, and a failed one shows an error and keeps the flag and the location |
| `Session.TextEditController.SaveDocumentAs` | Sources/TextEdit/TextEditController.swift:162-173 | a cancelled panel changes nothing; otherwise the text is written to the chosen path, and the document takes that location and the title follows, even when the write fails; the dirty flag is cleared only by a successful write |
| `Session.TextEditController.SaveDocument` | Sources/TextEdit/TextEditController.swift:154-160 | with a location, writes there and leaves location and title alone, clearing the dirty flag only on success; without one, behaves as Save As |
| `Session.TextEditController.ToggleLineNumbers` | Sources/TextEdit/TextEditController.swift:184-196 | negates `isShowingLineNumbers`; afterwards `hasVerticalRuler == rulersVisible == isShowingLineNumbers` |
| `Session.TextEditController.ToggleWordWrap` | Sources/TextEdit/TextEditController.swift:198-216 | the layout becomes `ToggledWrap` of the old layout at the current viewport width; no other state changes |
| `Session.TextEditController.ZoomIn` | Sources/TextEdit/TextEditController.swift:218-221 | the size becomes `ZoomedIn` of the old size; no other state changes |
| `Session.TextEditController.ZoomOut` | Sources/TextEdit/TextEditController.swift:223-226 | the size becomes `ZoomedOut` of the old size; no other state changes |
| `Session.TextEditController.ResetZoom` | Sources/TextEdit/TextEditController.swift:228-231 | the size becomes 14; no other state changes |
| `Session.TextEditController.UpdateWindowTitle` | Sources/TextEdit/TextEditController.swift:233-236 | the title is the document location's last path component, or "Untitled" when there is no document or no location |
| `Scenarios.SaveAfterFailedSaveAs` | Sources/TextEdit/TextEditController.swift:154-182 | after a Save As whose write fails, the title shows the chosen name and the next Save writes there without a panel |
| `Scenarios.NewDocumentAfterOpen` | Sources/TextEdit/TextEditController.swift:97-152 | New after Open clears the location but leaves the opened file's name in the title |
| `Scenarios.OpenUndecodableFile` | Sources/TextEdit/TextEditController.swift:133-152 | opening a file that is not UTF-8 shows an error and keeps the welcome document, its text and the title |
| `Scenarios.LineNumbersTwice` | Sources/TextEdit/TextEditController.swift:184-196 | two line-number toggles show and then hide the ruler |
| `Scenarios.WordWrapTwiceAfterLaunch` | Sources/TextEdit/TextEditController.swift:198-216 | two word-wrap toggles after launch end with wrap on and no horizontal scroller, though launch showed one |
| `Scenarios.SaveKeepsDirtyFlagOnFailure` | Sources/TextEdit/TextEditController.swift:175-182 | on a document marked dirty, a failed save keeps the mark and a successful save clears it |

## Left out

- `AppDelegate.swift` is left out: window creation, styling, menus, the About alert and the icon drawing. Its only role here is that its window title is the controller constructor's `windowTitle` parameter.
- `Package.swift` is left out: it is build configuration.
- View setup is left out: frames, constraints, colours, appearances, `updateFont`'s font and paragraph style, and `textView.needsDisplay`. They draw things and hold no session state.
- Alerts and panels are not modelled. Their answers are method inputs, and an OK panel that returns no URL counts as a cancelled one.
- Error message text is not modelled; errors are the `ErrorAlert` values. As written (lines 149 and 180) the message is a fixed literal, "Failed to open file: \(error.localizedDescription)" or "Failed to save file: \(error.localizedDescription)", because the backslash is escaped; the intended text would include Foundation's `localizedDescription`.
- Reading and writing files are not modelled. A read is a decoded-contents input, and a write is a requested `Write` whose success is an input.
- `Paths.LastPathComponent`: `URL.lastPathComponent` is Foundation code. The stand-in takes the characters after the last '/', so a path ending in '/' gives the empty string, where Foundation gives the previous component.
- `Session.TextEditController.UpdateWindowTitle`: the window is assumed to exist. When the view has no window, the Swift code sets nothing.
- The ruler view object (`verticalRulerView`) and `init(coder:)` are not modelled. Only the two scroll-view flags that show the ruler are.
- `Gutter.DrawHashMarksAndLabels`: every label gets the same measured size (`LabelSize`), and the label x and width come from it. The real width depends on the digits of the intended labels; for the labels as written it is indeed the same for every line.
- `Gutter.Intersects`: the code calls `NSRect.intersects(_:)`, which is `CGRect.intersects` on macOS; the model uses the rule of Foundation's `NSIntersectsRect` in its place, on integers: empty rectangles never intersect, and rectangles that only touch do not intersect. `CGRect.intersects` instead answers whether the intersection is not the null rectangle, so frames that only share an edge, or a zero-size but non-null redraw rectangle, can count as intersecting there; `Gutter.DrawnLinesEmpty` and `Gutter.EmptyDirtyRectDrawsNothing` are about the substituted rule. `CGFloat` coordinates, `greatestFiniteMagnitude` and font metrics are not modelled.
- `Session.TextEditController.ToggleWordWrap`: the container width is the scroll view's content width, passed in as an integer. Floating-point sizes are not modelled.
- `visibleRange()` is not modelled: its result is discarded.
- The caret placement after a new document is not modelled: it is a UTF-16 offset into the text view.

## Findings

| source | as written | input that shows it | evidently intended | confidence | as-written member | corrected member |
|---|---|---|---|---|---|---|
| Sources/TextEdit/TextEditController.swift:291 | `"\\(lineNumber + 1)"` escapes the backslash, so there is no interpolation. Every label is the literal text `\(lineNumber + 1)`. | any text: line 0 and line 1 both get `\(lineNumber + 1)` | the decimal numeral of `lineNumber + 1` ("1", "2", ...) | high (reading of Swift string-literal escapes; not executed) | `Gutter.AsWrittenLabelsCollide` (about `Gutter.LabelAsWritten`) | `Gutter.LabelsDistinct` (about `Gutter.Label`, which the gutter uses) |

The two error messages (lines 149 and 180) have the same escaped backslash. They do not affect the model, because message text is not modelled.
