/**
 * The editing session of `TextEditController`: the current document, the
 * line-number toggle, word wrap, zoom and the window title, driven by the menu
 * actions. Each dialog and each Foundation call is an input of the action that
 * makes it: the answer to a modal alert, the URL an open or save panel returns
 * (None when it is cancelled), the decoded file contents (None when the file
 * cannot be read as UTF-8) and whether a write succeeded.
 */
module Session {
  import opened Wrappers
  import opened Paths

  // ---------------------------------------------------------------------------
  // Font size

  const InitialFontSize: int := 14
  const MinFontSize: int := 8
  const MaxFontSize: int := 72
  const ZoomStep: int := 2

  /** The sizes the session can reach: even point sizes from 8 to 72. */
  predicate FontSizeOk(size: int)
  {
    MinFontSize <= size <= MaxFontSize && size % 2 == 0
  }

  /** `min(currentFontSize + 2, 72)`. */
  function ZoomedIn(size: int): (r: int)
    ensures r <= MaxFontSize
    ensures FontSizeOk(size) ==> FontSizeOk(r)
    ensures FontSizeOk(size) && size == MaxFontSize ==> r == size
    ensures FontSizeOk(size) && size < MaxFontSize ==> r == size + ZoomStep
  {
    if size + ZoomStep < MaxFontSize then size + ZoomStep else MaxFontSize
  }

  /** `max(currentFontSize - 2, 8)`. */
  function ZoomedOut(size: int): (r: int)
    ensures r >= MinFontSize
    ensures FontSizeOk(size) ==> FontSizeOk(r)
    ensures FontSizeOk(size) && size == MinFontSize ==> r == size
    ensures FontSizeOk(size) && size > MinFontSize ==> r == size - ZoomStep
  {
    if size - ZoomStep > MinFontSize then size - ZoomStep else MinFontSize
  }

  datatype ZoomCommand = ZoomIn | ZoomOut | ResetZoom

  function Zoom(size: int, command: ZoomCommand): int
  {
    match command
    case ZoomIn => ZoomedIn(size)
    case ZoomOut => ZoomedOut(size)
    case ResetZoom => InitialFontSize
  }

  /** The font size after running `commands` in order. */
  function ZoomAll(size: int, commands: seq<ZoomCommand>): int
    decreases |commands|
  {
    if commands == [] then size else ZoomAll(Zoom(size, commands[0]), commands[1..])
  }

  /** Whatever the zoom menu items are chosen, the size stays even and in [8, 72]. */
  lemma {:induction false} ZoomAllStaysInRange(size: int, commands: seq<ZoomCommand>)
    requires FontSizeOk(size)
    ensures FontSizeOk(ZoomAll(size, commands))
    decreases |commands|
  {
    if commands != [] {
      ZoomAllStaysInRange(Zoom(size, commands[0]), commands[1..]);
    }
  }

  function Repeat(command: ZoomCommand, n: nat): (r: seq<ZoomCommand>)
    ensures |r| == n && forall c :: c in r ==> c == command
  {
    if n == 0 then [] else [command] + Repeat(command, n - 1)
  }

  lemma {:induction false} ZoomInRepeatedly(size: int, n: nat)
    requires FontSizeOk(size) && size + ZoomStep * n <= MaxFontSize
    ensures ZoomAll(size, Repeat(ZoomIn, n)) == size + ZoomStep * n
    decreases n
  {
    if n > 0 {
      assert Repeat(ZoomIn, n)[1..] == Repeat(ZoomIn, n - 1);
      ZoomInRepeatedly(size + ZoomStep, n - 1);
    }
  }

  lemma {:induction false} ZoomOutRepeatedly(size: int, n: nat)
    requires FontSizeOk(size) && size - ZoomStep * n >= MinFontSize
    ensures ZoomAll(size, Repeat(ZoomOut, n)) == size - ZoomStep * n
    decreases n
  {
    if n > 0 {
      assert Repeat(ZoomOut, n)[1..] == Repeat(ZoomOut, n - 1);
      ZoomOutRepeatedly(size - ZoomStep, n - 1);
    }
  }

  /** Every even size in [8, 72] is reached from 14 by zooming. */
  lemma EverySizeReachable(size: int)
    requires FontSizeOk(size)
    ensures size >= InitialFontSize ==>
      ZoomAll(InitialFontSize, Repeat(ZoomIn, (size - InitialFontSize) / 2)) == size
    ensures size <= InitialFontSize ==>
      ZoomAll(InitialFontSize, Repeat(ZoomOut, (InitialFontSize - size) / 2)) == size
  {
    if size >= InitialFontSize {
      ZoomInRepeatedly(InitialFontSize, (size - InitialFontSize) / 2);
    }
    if size <= InitialFontSize {
      ZoomOutRepeatedly(InitialFontSize, (InitialFontSize - size) / 2);
    }
  }

  // ---------------------------------------------------------------------------
  // Text view layout

  /** The text container's width: unbounded, or the scroll view's content width. */
  datatype ContainerWidth = Unbounded | Bounded(width: int)

  /** The flags `toggleWordWrap` sets on the text view, its container and the scroll view. */
  datatype Layout = Layout(
    widthTracksTextView: bool,
    isHorizontallyResizable: bool,
    hasHorizontalScroller: bool,
    containerWidth: ContainerWidth)

  /** Every flag agrees with `widthTracksTextView`, the word-wrap setting. */
  predicate Consistent(layout: Layout)
  {
    layout.isHorizontallyResizable == !layout.widthTracksTextView &&
    layout.hasHorizontalScroller == !layout.widthTracksTextView &&
    (layout.containerWidth.Unbounded? <==> !layout.widthTracksTextView)
  }

  /** `setupTextEditor`: wrap on, yet the horizontal scroller is shown. */
  function InitialLayout(viewportWidth: int): Layout
  {
    Layout(true, false, true, Bounded(viewportWidth))
  }

  /** The flags after `toggleWordWrap` when the viewport is `viewportWidth` wide. */
  function ToggledWrap(layout: Layout, viewportWidth: int): (r: Layout)
    ensures Consistent(r)
    ensures r.widthTracksTextView == !layout.widthTracksTextView
    ensures r.widthTracksTextView ==> r.containerWidth == Bounded(viewportWidth)
  {
    if layout.widthTracksTextView then Layout(false, true, true, Unbounded)
    else Layout(true, false, false, Bounded(viewportWidth))
  }

  lemma InitialLayoutInconsistent(viewportWidth: int)
    ensures !Consistent(InitialLayout(viewportWidth))
  {
  }

  /** Turning wrap off and on again after launch hides the scroller launch showed. */
  lemma TwoTogglesFromLaunchHideScroller(viewportWidth: int, w1: int, w2: int)
    ensures InitialLayout(viewportWidth).hasHorizontalScroller
    ensures !ToggledWrap(ToggledWrap(InitialLayout(viewportWidth), w1), w2).hasHorizontalScroller
    ensures ToggledWrap(ToggledWrap(InitialLayout(viewportWidth), w1), w2) != InitialLayout(viewportWidth)
  {
  }

  /** On a layout a toggle produced, two more toggles at the same width change nothing. */
  lemma TwoTogglesRestoreToggledLayout(layout: Layout, w: int, w1: int)
    ensures ToggledWrap(ToggledWrap(ToggledWrap(layout, w), w1), w) == ToggledWrap(layout, w)
  {
  }

  /** Layouts the session can be in: the one from launch, or one a toggle made. */
  predicate LayoutReachable(layout: Layout)
  {
    Consistent(layout) ||
    (layout.widthTracksTextView && !layout.isHorizontallyResizable &&
     layout.hasHorizontalScroller && layout.containerWidth.Bounded?)
  }

  // ---------------------------------------------------------------------------
  // The session

  /** The two buttons of the "Create New Document" alert. */
  datatype AlertAnswer = NewDocumentButton | CancelButton

  /** The error alerts the session shows; the Foundation error text is not modelled. */
  datatype ErrorAlert = OpenFailed | SaveFailed

  /** A request to write `content` as UTF-8 to the file at `path`. */
  datatype Write = Write(path: Path, content: string)

  /** The text `createNewDocument` puts in the text view. */
  const Welcome: string :=
    "# Welcome to TextEdit \U{1F9E0}\n\n"
    + "A modern, dark-themed text editor for macOS built with Swift and AppKit.\n\n"
    + "Features:\n"
    + "\U{2022} Native macOS dark mode integration\n"
    + "\U{2022} Rounded window corners\n"
    + "\U{2022} Syntax-aware text editing\n"
    + "\U{2022} Line numbers (\U{2318}L to toggle)\n"
    + "\U{2022} Word wrap (\U{2318}\U{21E7}W to toggle)\n"
    + "\U{2022} Zoom in/out (\U{2318}+/\U{2318}-)\n\n"
    + "Start typing to begin editing..."

  /** The file behind the text being edited. */
  class Document {
    var url: Option<Path>
    var hasUnsavedChanges: bool

    constructor (url: Option<Path>)
      ensures this.url == url && !hasUnsavedChanges
    {
      this.url := url;
      hasUnsavedChanges := false;
    }
  }

  class TextEditController {
    /** `textView.string`. */
    var text: string
    var currentDocument: Document?
    var isShowingLineNumbers: bool
    var currentFontSize: int
    var layout: Layout
    /** `scrollView.hasVerticalRuler` and `scrollView.rulersVisible`. */
    var hasVerticalRuler: bool
    var rulersVisible: bool
    /** The title of the window showing the controller's view. */
    var windowTitle: string

    /**
     * The font size is in range, the ruler is shown exactly when line numbers
     * are on, and the layout flags are those of launch or of a toggle.
     */
    ghost predicate Valid()
      reads this
    {
      FontSizeOk(currentFontSize) &&
      hasVerticalRuler == isShowingLineNumbers &&
      rulersVisible == isShowingLineNumbers &&
      LayoutReachable(layout)
    }

    /**
     * The current document is not marked as having unsaved changes. Nothing in
     * the controller sets the flag, so every action keeps this once it holds.
     */
    ghost predicate NoneDirty()
      reads this, currentDocument
    {
      currentDocument != null ==> !currentDocument.hasUnsavedChanges
    }

    /** The location of the current document, if there is one and it has one. */
    function DocumentUrl(): Option<Path>
      reads this, currentDocument
    {
      if currentDocument == null then None else currentDocument.url
    }

    /**
     * `loadView` followed by `viewDidLoad`, in a window titled `windowTitle`
     * whose scroll view is `viewportWidth` wide.
     */
    constructor (viewportWidth: int, windowTitle: string)
      ensures Valid() && NoneDirty()
      ensures fresh(currentDocument) && currentDocument.url == None
      ensures text == Welcome
      ensures !isShowingLineNumbers && currentFontSize == InitialFontSize
      ensures layout == InitialLayout(viewportWidth)
      ensures this.windowTitle == windowTitle
    {
      isShowingLineNumbers := false;
      currentFontSize := InitialFontSize;
      layout := InitialLayout(viewportWidth);
      hasVerticalRuler, rulersVisible := false, false;
      this.windowTitle := windowTitle;
      text := Welcome;
      currentDocument := new Document(None);
    }

    /** A fresh document without a location, and the welcome text. */
    method CreateNewDocument()
      requires Valid()
      modifies this`currentDocument, this`text
      ensures Valid()
      ensures old(NoneDirty()) ==> NoneDirty()
      ensures fresh(currentDocument) && currentDocument.url == None && !currentDocument.hasUnsavedChanges
      ensures text == Welcome
    {
      currentDocument := new Document(None);
      text := Welcome;
    }

    /** The "New" menu item. Confirming replaces the document; the title is left as it was. */
    method NewDocument(answer: AlertAnswer)
      requires Valid()
      modifies this`currentDocument, this`text
      ensures Valid()
      ensures old(NoneDirty()) ==> NoneDirty()
      ensures answer == CancelButton ==> currentDocument == old(currentDocument) && text == old(text)
      ensures answer == NewDocumentButton ==>
        fresh(currentDocument) && currentDocument.url == None && !currentDocument.hasUnsavedChanges &&
        text == Welcome
      ensures windowTitle == old(windowTitle)
    {
      if answer == NewDocumentButton {
        CreateNewDocument();
      }
    }

    /**
     * The "Open..." menu item. `chosen` is the file the open panel returns and
     * `contents` what reading it as UTF-8 gives. A cancelled panel or an
     * unreadable file leaves the text, the document and the title as they were.
     */
    method OpenDocument(chosen: Option<Path>, contents: Option<string>) returns (error: Option<ErrorAlert>)
      requires Valid()
      modifies this`text, this`currentDocument, this`windowTitle
      ensures Valid()
      ensures old(NoneDirty()) ==> NoneDirty()
      ensures chosen.None? || contents.None? ==>
        text == old(text) && currentDocument == old(currentDocument) && windowTitle == old(windowTitle)
      ensures error == if chosen.Some? && contents.None? then Some(OpenFailed) else None
      ensures chosen.Some? && contents.Some? ==>
        text == contents.value &&
        fresh(currentDocument) && currentDocument.url == chosen && !currentDocument.hasUnsavedChanges &&
        windowTitle == Title(chosen)
    {
      error := None;
      if chosen.Some? {
        if contents.Some? {
          text := contents.value;
          currentDocument := new Document(chosen);
          UpdateWindowTitle();
        } else {
          error := Some(OpenFailed);
        }
      }
    }

    /**
     * Writes the text to `url`; `written` says whether the write succeeded.
     * Only a successful write clears the dirty flag; a failed one leaves it.
     */
    method SaveToUrl(url: Path, written: bool) returns (request: Write, error: Option<ErrorAlert>)
      requires Valid()
      modifies currentDocument
      ensures Valid()
      ensures old(NoneDirty()) ==> NoneDirty()
      ensures request == Write(url, text)
      ensures error == if written then None else Some(SaveFailed)
      ensures currentDocument != null ==> currentDocument.url == old(currentDocument.url)
      ensures currentDocument != null ==>
        currentDocument.hasUnsavedChanges == (old(currentDocument.hasUnsavedChanges) && !written)
    {
      request := Write(url, text);
      if written {
        if currentDocument != null {
          currentDocument.hasUnsavedChanges := false;
        }
        error := None;
      } else {
        error := Some(SaveFailed);
      }
    }

    /**
     * The "Save As..." menu item. `chosen` is the file the save panel returns.
     * Once a file is chosen the document takes its location and the title
     * follows, whether or not the write succeeded.
     */
    method SaveDocumentAs(chosen: Option<Path>, written: bool) returns (request: Option<Write>, error: Option<ErrorAlert>)
      requires Valid()
      modifies this`windowTitle, currentDocument
      ensures Valid()
      ensures old(NoneDirty()) ==> NoneDirty()
      ensures chosen.None? ==>
        request == None && error == None && windowTitle == old(windowTitle) &&
        (currentDocument != null ==> unchanged(currentDocument))
      ensures chosen.Some? ==>
        request == Some(Write(chosen.value, text)) &&
        error == (if written then None else Some(SaveFailed)) &&
        (currentDocument != null ==> currentDocument.url == chosen) &&
        (currentDocument != null ==>
          currentDocument.hasUnsavedChanges == (old(currentDocument.hasUnsavedChanges) && !written)) &&
        windowTitle == Title(DocumentUrl())
    {
      request, error := None, None;
      if chosen.Some? {
        var r;
        r, error := SaveToUrl(chosen.value, written);
        request := Some(r);
        if currentDocument != null {
          currentDocument.url := chosen;
        }
        UpdateWindowTitle();
      }
    }

    /**
     * The "Save" menu item: straight to the document's location when it has
     * one (the panel answer `chosen` is then never asked for), otherwise as
     * "Save As...".
     */
    method SaveDocument(chosen: Option<Path>, written: bool) returns (request: Option<Write>, error: Option<ErrorAlert>)
      requires Valid()
      modifies this`windowTitle, currentDocument
      ensures Valid()
      ensures old(NoneDirty()) ==> NoneDirty()
      ensures old(DocumentUrl()).Some? ==>
        request == Some(Write(old(DocumentUrl()).value, text)) &&
        error == (if written then None else Some(SaveFailed)) &&
        DocumentUrl() == old(DocumentUrl()) && windowTitle == old(windowTitle) &&
        currentDocument.hasUnsavedChanges == (old(currentDocument.hasUnsavedChanges) && !written)
      ensures old(DocumentUrl()).None? && chosen.None? ==>
        request == None && error == None && windowTitle == old(windowTitle) &&
        (currentDocument != null ==> unchanged(currentDocument))
      ensures old(DocumentUrl()).None? && chosen.Some? ==>
        request == Some(Write(chosen.value, text)) &&
        error == (if written then None else Some(SaveFailed)) &&
        (currentDocument != null ==> currentDocument.url == chosen) &&
        (currentDocument != null ==>
          currentDocument.hasUnsavedChanges == (old(currentDocument.hasUnsavedChanges) && !written)) &&
        windowTitle == Title(DocumentUrl())
    {
      if currentDocument != null && currentDocument.url.Some? {
        var r;
        r, error := SaveToUrl(currentDocument.url.value, written);
        request := Some(r);
      } else {
        request, error := SaveDocumentAs(chosen, written);
      }
    }

    /** The "Show Line Numbers" menu item. */
    method ToggleLineNumbers()
      requires Valid()
      modifies this`isShowingLineNumbers, this`hasVerticalRuler, this`rulersVisible
      ensures Valid()
      ensures old(NoneDirty()) ==> NoneDirty()
      ensures isShowingLineNumbers == !old(isShowingLineNumbers)
      ensures hasVerticalRuler == isShowingLineNumbers && rulersVisible == isShowingLineNumbers
    {
      isShowingLineNumbers := !isShowingLineNumbers;
      if isShowingLineNumbers {
        hasVerticalRuler := true;
        rulersVisible := true;
      } else {
        hasVerticalRuler := false;
        rulersVisible := false;
      }
    }

    /** The "Word Wrap" menu item, with the scroll view `viewportWidth` wide. */
    method ToggleWordWrap(viewportWidth: int)
      requires Valid()
      modifies this`layout
      ensures Valid()
      ensures old(NoneDirty()) ==> NoneDirty()
      ensures layout == ToggledWrap(old(layout), viewportWidth)
    {
      layout := ToggledWrap(layout, viewportWidth);
    }

    /** The "Zoom In" menu item. */
    method ZoomIn()
      requires Valid()
      modifies this`currentFontSize
      ensures Valid()
      ensures old(NoneDirty()) ==> NoneDirty()
      ensures currentFontSize == ZoomedIn(old(currentFontSize))
    {
      currentFontSize := ZoomedIn(currentFontSize);
    }

    /** The "Zoom Out" menu item. */
    method ZoomOut()
      requires Valid()
      modifies this`currentFontSize
      ensures Valid()
      ensures old(NoneDirty()) ==> NoneDirty()
      ensures currentFontSize == ZoomedOut(old(currentFontSize))
    {
      currentFontSize := ZoomedOut(currentFontSize);
    }

    /** The "Reset Zoom" menu item. */
    method ResetZoom()
      requires Valid()
      modifies this`currentFontSize
      ensures Valid()
      ensures old(NoneDirty()) ==> NoneDirty()
      ensures currentFontSize == InitialFontSize
    {
      currentFontSize := InitialFontSize;
    }

    /** The title is the document location's last path component, or "Untitled". */
    method UpdateWindowTitle()
      modifies this`windowTitle
      ensures windowTitle == Title(DocumentUrl())
    {
      windowTitle := Title(DocumentUrl());
    }
  }
}
