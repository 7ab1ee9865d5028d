/**
 * The display view (component `WordCloudComp`): it collects the words of the
 * current question from the channel, sizes the cloud canvas from the window,
 * and holds the theme, presentation-mode and section-visibility switches.
 */
module Display {
  import opened Wrappers
  import opened Cloud

  /** Which of the three page sections are shown. */
  datatype Visibility = Visibility(header: bool, question: bool, controls: bool)

  datatype Section = Header | QuestionLine | Controls

  function Shown(v: Visibility, s: Section): bool {
    match s
    case Header => v.header
    case QuestionLine => v.question
    case Controls => v.controls
  }

  /** `{ ...prev, [key]: !prev[key] }` */
  function Flip(v: Visibility, s: Section): (r: Visibility)
    ensures Shown(r, s) == !Shown(v, s)
    ensures forall t :: t != s ==> Shown(r, t) == Shown(v, t)
  {
    match s
    case Header => v.(header := !v.header)
    case QuestionLine => v.(question := !v.question)
    case Controls => v.(controls := !v.controls)
  }

  /** Flipping a section twice restores the visibility. */
  lemma FlipTwice(v: Visibility, s: Section)
    ensures Flip(Flip(v, s), s) == v
  {
  }

  const AllShown: Visibility := Visibility(true, true, true)
  /** Presentation mode shows the question and hides the header and the controls. */
  const MinimalShown: Visibility := Visibility(false, true, false)

  function Min(a: real, b: real): real {
    if a <= b then a else b
  }

  function Max(a: real, b: real): real {
    if a >= b then a else b
  }

  datatype Dimensions = Dimensions(width: real, height: real)

  /**
   * `getWordCloudDimensions`: in fullscreen the window less fixed margins, with
   * no clamping; otherwise 90% of the window width less 64 capped at 1200 but
   * at least 400, and 60% of the window height capped at 600 but at least 300.
   */
  function CloudDimensions(isFullscreen: bool, windowWidth: real, windowHeight: real): (d: Dimensions)
    ensures isFullscreen ==> d.width == windowWidth - 100.0 && d.height == windowHeight - 200.0
    ensures !isFullscreen ==> 400.0 <= d.width <= 1080.0 && 300.0 <= d.height <= 600.0
  {
    if isFullscreen then
      Dimensions(windowWidth - 100.0, windowHeight - 200.0)
    else
      var containerWidth := Min(windowWidth - 64.0, 1200.0);
      var containerHeight := Min(windowHeight * 0.6, 600.0);
      Dimensions(Max(containerWidth * 0.9, 400.0), Max(containerHeight, 300.0))
  }

  /**
   * Outside fullscreen a larger window never gives a smaller canvas, the
   * canvas reaches its full 1080 x 600 from a 1264 x 1000 window on, and it is
   * at its minimum 400 x 300 up to a 508 x 500 window.
   */
  lemma CloudDimensionsMonotone(w1: real, h1: real, w2: real, h2: real)
    requires w1 <= w2 && h1 <= h2
    ensures CloudDimensions(false, w1, h1).width <= CloudDimensions(false, w2, h2).width
    ensures CloudDimensions(false, w1, h1).height <= CloudDimensions(false, w2, h2).height
    ensures w2 >= 1264.0 ==> CloudDimensions(false, w2, h2).width == 1080.0
    ensures h2 >= 1000.0 ==> CloudDimensions(false, w2, h2).height == 600.0
    ensures w1 <= 508.0 ==> CloudDimensions(false, w1, h1).width == 400.0
    ensures h1 <= 500.0 ==> CloudDimensions(false, w1, h1).height == 300.0
  {
  }

  /** In fullscreen a small window gives a canvas of no area at all. */
  lemma FullscreenCanBeEmpty(windowWidth: real, windowHeight: real)
    requires windowWidth <= 100.0 || windowHeight <= 200.0
    ensures CloudDimensions(true, windowWidth, windowHeight).width <= 0.0
         || CloudDimensions(true, windowWidth, windowHeight).height <= 0.0
  {
  }

  /** The state of the display view. */
  class DisplayState {
    /** Words received for the current question, in arrival order. */
    var words: seq<string>
    var question: string
    var isDarkTheme: bool
    var showMinimalView: bool
    var visibility: Visibility
    var isFullscreen: bool
    var windowWidth: real
    var windowHeight: real

    constructor (windowWidth: real, windowHeight: real)
      ensures words == [] && question == ""
      ensures !isDarkTheme && !showMinimalView && visibility == AllShown && !isFullscreen
      ensures this.windowWidth == windowWidth && this.windowHeight == windowHeight
    {
      words, question := [], "";
      isDarkTheme, showMinimalView, visibility, isFullscreen := false, false, AllShown, false;
      this.windowWidth, this.windowHeight := windowWidth, windowHeight;
    }

    /** A "word" event: the word goes at the end, the earlier words stay as they were. */
    method OnWord(word: string)
      modifies this`words
      ensures words == old(words) + [word]
      ensures |words| == |old(words)| + 1 && words[..|old(words)|] == old(words) && words[|words| - 1] == word
    {
      words := words + [word];
    }

    /** A "question" event: the new question replaces the old one and the words are dropped, even for an unchanged question. */
    method OnQuestion(newQuestion: string)
      modifies this`question, this`words
      ensures question == newQuestion && words == []
    {
      question := newQuestion;
      words := [];
    }

    method ToggleTheme()
      modifies this`isDarkTheme
      ensures isDarkTheme == !old(isDarkTheme)
      ensures CloudTheme() != old(CloudTheme())
    {
      isDarkTheme := !isDarkTheme;
    }

    /** The theme handed to the cloud. */
    function CloudTheme(): (theme: Theme)
      reads this`isDarkTheme
      ensures theme == Dark <==> isDarkTheme
      ensures theme == Light <==> !isDarkTheme
    {
      if isDarkTheme then Dark else Light
    }

    /** Entering presentation mode hides header and controls; leaving it shows all; the question stays shown. */
    method ToggleMinimalView()
      modifies this`showMinimalView, this`visibility
      ensures showMinimalView == !old(showMinimalView)
      ensures visibility == if showMinimalView then MinimalShown else AllShown
      ensures visibility.question
      ensures QuestionHeadingShown() <==> question != ""
    {
      var entering := !showMinimalView;
      showMinimalView := entering;
      if entering {
        visibility := MinimalShown;
      } else {
        visibility := AllShown;
      }
    }

    /** A switch of the settings dialog: only that section's visibility changes. */
    method ToggleSection(section: Section)
      modifies this`visibility
      ensures visibility == Flip(old(visibility), section)
      ensures Shown(visibility, section) == !Shown(old(visibility), section)
      ensures forall other :: other != section ==> Shown(visibility, other) == Shown(old(visibility), other)
    {
      visibility := Flip(visibility, section);
    }

    method OnResize(newWidth: real, newHeight: real)
      modifies this`windowWidth, this`windowHeight
      ensures windowWidth == newWidth && windowHeight == newHeight
    {
      windowWidth, windowHeight := newWidth, newHeight;
    }

    method OnFullscreenChange(fullscreen: bool)
      modifies this`isFullscreen
      ensures isFullscreen == fullscreen
    {
      isFullscreen := fullscreen;
    }

    /** The canvas size handed to the cloud. */
    function CanvasSize(): (d: Dimensions)
      reads this`isFullscreen, this`windowWidth, this`windowHeight
      ensures !isFullscreen ==> 400.0 <= d.width <= 1080.0 && 300.0 <= d.height <= 600.0
    {
      CloudDimensions(isFullscreen, windowWidth, windowHeight)
    }

    /** The question heading is shown when there is a question and its section is visible. */
    function QuestionHeadingShown(): (shown: bool)
      reads this`question, this`visibility
      ensures shown <==> question != "" && visibility.question
    {
      question != "" && visibility.question
    }

    /** Re-renders the cloud with the current words, question, canvas and theme. */
    method RenderCloud(view: CloudView) returns (started: Option<LayoutRequest>)
      requires view.Valid()
      modifies view
      ensures view.Valid()
      ensures view.words == words && view.question == question && view.theme == CloudTheme()
      ensures view.width == CanvasSize().width && view.height == CanvasSize().height
      ensures started.Some? ==> IsRequestFor(started.value, words, CanvasSize().width, CanvasSize().height, CloudTheme())
    {
      var size := CanvasSize();
      started := view.Update(words, question, size.width, size.height, CloudTheme());
    }
  }

  /**
   * After a new question, even a repeat of the current one, the cloud shows
   * the waiting message and an empty canvas, whatever words it showed before.
   */
  method QuestionClearsCloud(display: DisplayState, view: CloudView, newQuestion: string)
    requires view.Valid()
    modifies display, view
    ensures display.words == [] && display.question == newQuestion
    ensures ViewFor(view.words) == Waiting && view.groups == []
  {
    display.OnQuestion(newQuestion);
    var _ := display.RenderCloud(view);
  }
}
