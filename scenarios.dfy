/**
 * Sessions run from launch through a few menu actions, showing what the
 * action contracts of `Session.TextEditController` imply for a user.
 */
module Scenarios {
  import opened Wrappers
  import opened Paths
  import opened Session

  /**
   * "Save As..." to `dir/name` fails to write; the next "Save" goes straight
   * to `dir/name` without a panel (the panel answer it is given is None), and
   * the title has shown `name` since the failed save.
   */
  method SaveAfterFailedSaveAs(viewportWidth: int, launchTitle: string, dir: Path, name: string)
    returns (first: Option<Write>, firstError: Option<ErrorAlert>, second: Option<Write>, title: string)
    requires '/' !in name
    ensures first == Some(Write(dir + "/" + name, Welcome)) && firstError == Some(SaveFailed)
    ensures second == Some(Write(dir + "/" + name, Welcome))
    ensures title == name
  {
    var c := new TextEditController(viewportWidth, launchTitle);
    first, firstError := c.SaveDocumentAs(Some(dir + "/" + name), false);
    LastPathComponentOfJoin(dir, name);
    title := c.windowTitle;
    var secondError;
    second, secondError := c.SaveDocument(None, true);
  }

  /** After opening `dir/name`, "New" empties the location but the title still shows `name`. */
  method NewDocumentAfterOpen(viewportWidth: int, launchTitle: string, dir: Path, name: string, contents: string)
    returns (url: Option<Path>, text: string, title: string)
    requires '/' !in name
    ensures url == None && text == Welcome
    ensures title == name
  {
    var c := new TextEditController(viewportWidth, launchTitle);
    var error := c.OpenDocument(Some(dir + "/" + name), Some(contents));
    LastPathComponentOfJoin(dir, name);
    c.NewDocument(NewDocumentButton);
    url, text, title := c.DocumentUrl(), c.text, c.windowTitle;
  }

  /** A file that is not UTF-8 leaves the welcome document, its text and the title in place. */
  method OpenUndecodableFile(viewportWidth: int, launchTitle: string, path: Path)
    returns (error: Option<ErrorAlert>, url: Option<Path>, text: string, title: string)
    ensures error == Some(OpenFailed)
    ensures url == None && text == Welcome && title == launchTitle
  {
    var c := new TextEditController(viewportWidth, launchTitle);
    error := c.OpenDocument(Some(path), None);
    url, text, title := c.DocumentUrl(), c.text, c.windowTitle;
  }

  /** Two "Show Line Numbers" toggles show and then hide the ruler again. */
  method LineNumbersTwice(viewportWidth: int, launchTitle: string)
    returns (shownAfterFirst: bool, shownAfterSecond: bool, rulerAfterSecond: bool)
    ensures shownAfterFirst && !shownAfterSecond && !rulerAfterSecond
  {
    var c := new TextEditController(viewportWidth, launchTitle);
    c.ToggleLineNumbers();
    shownAfterFirst := c.isShowingLineNumbers;
    c.ToggleLineNumbers();
    shownAfterSecond, rulerAfterSecond := c.isShowingLineNumbers, c.hasVerticalRuler;
  }

  /** Two "Word Wrap" toggles after launch do not bring back the horizontal scroller. */
  method WordWrapTwiceAfterLaunch(viewportWidth: int, launchTitle: string, w1: int, w2: int)
    returns (scrollerAtLaunch: bool, scrollerAfter: bool, wrapAfter: bool)
    ensures scrollerAtLaunch && !scrollerAfter && wrapAfter
  {
    var c := new TextEditController(viewportWidth, launchTitle);
    scrollerAtLaunch := c.layout.hasHorizontalScroller;
    c.ToggleWordWrap(w1);
    c.ToggleWordWrap(w2);
    scrollerAfter, wrapAfter := c.layout.hasHorizontalScroller, c.layout.widthTracksTextView;
  }

  /**
   * Were the document marked as having unsaved changes, a failed "Save" to
   * its location would keep the mark and a successful one would clear it.
   */
  method SaveKeepsDirtyFlagOnFailure(viewportWidth: int, launchTitle: string, path: Path, contents: string)
    returns (dirtyAfterFailure: bool, dirtyAfterSuccess: bool, error: Option<ErrorAlert>)
    ensures dirtyAfterFailure && !dirtyAfterSuccess
    ensures error == None
  {
    var c := new TextEditController(viewportWidth, launchTitle);
    var openError := c.OpenDocument(Some(path), Some(contents));
    c.currentDocument.hasUnsavedChanges := true;
    var request;
    request, error := c.SaveDocument(None, false);
    dirtyAfterFailure := c.currentDocument.hasUnsavedChanges;
    request, error := c.SaveDocument(None, true);
    dirtyAfterSuccess := c.currentDocument.hasUnsavedChanges;
  }
}
