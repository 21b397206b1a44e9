/**
 * The `title` frame source: one block of animated text (a text box, which
 * may wrap or hold line breaks) drawn onto a canvas once per video frame. The factory fixes the title's settings; every frame
 * the dispatcher picks one of four styles (static, fade-in, word-by-word,
 * letter-by-letter) and the chosen renderer adds at most one image layer to
 * the canvas. Nothing is carried from one frame to the next.
 *
 * Each renderer is a method that changes the canvas, proved against a pure
 * function giving the layer it must add.
 */
module Title {
  import opened Wrappers
  import opened JsMath
  import opened JsText
  import opened Reveal

  /** Horizontal anchor of a layer. */
  datatype OriginX = OriginLeft | OriginCenter | OriginRight

  /** Vertical anchor of a layer. */
  datatype OriginY = OriginTop | OriginMiddle | OriginBottom

  /** Horizontal alignment of the lines inside a text box. */
  datatype TextAlign = AlignLeft | AlignCenter | AlignRight

  /** Zoom directions; `NoZoom` is the `null` direction that switches zoom off. */
  datatype ZoomDirection = ZoomIn | ZoomOut | ZoomLeft | ZoomRight | NoZoom

  /** The four ways a title is animated. */
  datatype Style = StaticStyle | FadeInStyle | WordByWordStyle | LetterByLetterStyle {
    /** The styles that reveal the text one token at a time. */
    predicate IsTokenStyle() {
      WordByWordStyle? || LetterByLetterStyle?
    }
  }

  /** Pixel position and origin of the title, as the position helper gives them. */
  datatype Anchor = Anchor(left: real, top: real, originX: OriginX, originY: OriginY)

  /** The title layer's parameters as written in an edit spec; `None` is an omitted field. */
  datatype TitleParams = TitleParams(
    text: string,
    textColor: Option<string>,
    fontFamily: Option<string>,
    position: Option<string>,
    zoomDirection: Option<ZoomDirection>,
    zoomAmount: Option<real>,
    fontSize: Option<real>,
    style: Option<string>)

  /**
   * The helpers the frame source imports from the utility module: the
   * default font family, the position resolver, and the zoom scale and
   * zoom translation curves. Their definitions are not part of this model.
   */
  datatype Util = Util(
    defaultFontFamily: string,
    positionProps: (string, int, int) -> Anchor,
    zoomParams: (real, ZoomDirection, real) -> real,
    translationParams: (real, ZoomDirection, real) -> real)

  /** What the factory fixes once per title: settings with defaults applied. */
  datatype TitleConfig = TitleConfig(
    text: string,
    textColor: string,
    fontFamily: string,
    fontSize: int,
    zoomDirection: ZoomDirection,
    zoomAmount: real,
    style: Option<string>,
    width: int,
    anchor: Anchor)

  /** The argument object every renderer receives. */
  datatype RenderArgs = RenderArgs(
    text: string,
    textColor: string,
    fontFamily: string,
    fontSize: int,
    progress: real,
    left: real,
    top: real,
    originX: OriginX,
    originY: OriginY,
    scaleFactor: real)

  /**
   * One image added to the canvas: the text box it was rendered from (text,
   * fill, font, alignment, box width) and the placement set on the image.
   */
  datatype Layer = Layer(
    text: string,
    fill: string,
    fontFamily: string,
    fontSize: int,
    textAlign: TextAlign,
    boxWidth: real,
    originX: OriginX,
    originY: OriginY,
    left: real,
    top: real,
    scaleX: real,
    scaleY: real,
    opacity: real)

  /** A title's font size: `Math.round(fontSize)` when it is given and non-zero, else a tenth of the smaller frame side, rounded. */
  function FontSizeAbs(fontSize: Option<real>, width: int, height: int): (size: int)
    ensures fontSize.Some? && fontSize.value != 0.0 ==>
      size as real - 0.5 <= fontSize.value < size as real + 0.5
    ensures fontSize.None? || fontSize.value == 0.0 ==>
      size as real - 0.5 <= MinInt(width, height) as real * 0.1 < size as real + 0.5
  {
    if fontSize.Some? && fontSize.value != 0.0 then Round(fontSize.value)
    else Round(MinInt(width, height) as real * 0.1)
  }

  /** The factory: destructure the parameters with their defaults and resolve the position once. */
  function Setup(width: int, height: int, params: TitleParams, util: Util): (cfg: TitleConfig)
    ensures cfg.text == params.text && cfg.style == params.style && cfg.width == width
    ensures params.textColor.Some? ==> cfg.textColor == params.textColor.value
    ensures params.fontFamily.Some? ==> cfg.fontFamily == params.fontFamily.value
    ensures params.zoomDirection.Some? ==> cfg.zoomDirection == params.zoomDirection.value
    ensures params.zoomAmount.Some? ==> cfg.zoomAmount == params.zoomAmount.value
    ensures params.position.Some? ==> cfg.anchor == util.positionProps(params.position.value, width, height)
    ensures cfg.fontSize == FontSizeAbs(params.fontSize, width, height)
  {
    TitleConfig(
      params.text,
      params.textColor.GetOr("#ffffff"),
      params.fontFamily.GetOr(util.defaultFontFamily),
      FontSizeAbs(params.fontSize, width, height),
      params.zoomDirection.GetOr(ZoomIn),
      params.zoomAmount.GetOr(0.2),
      params.style,
      width,
      util.positionProps(params.position.GetOr("center"), width, height))
  }

  /** The style a `style` string selects; any other value, or none, is the static title. */
  function StyleOf(style: Option<string>): (s: Style)
    ensures s == WordByWordStyle <==> style == Some("word-by-word")
    ensures s == LetterByLetterStyle <==> style == Some("letter-by-letter")
    ensures s == FadeInStyle <==> style == Some("fade-in")
    ensures s == StaticStyle <==>
      style != Some("word-by-word") && style != Some("letter-by-letter") && style != Some("fade-in")
  {
    if style == Some("word-by-word") then WordByWordStyle
    else if style == Some("letter-by-letter") then LetterByLetterStyle
    else if style == Some("fade-in") then FadeInStyle
    else StaticStyle
  }

  /** Token styles switch zoom off; the other styles keep the configured direction. */
  function EffectiveZoom(style: Style, configured: ZoomDirection): (z: ZoomDirection)
    ensures z == NoZoom <==> style.IsTokenStyle() || configured == NoZoom
    ensures !style.IsTokenStyle() ==> z == configured
  {
    if style.IsTokenStyle() then NoZoom else configured
  }

  /** Text alignment follows the horizontal origin: left, right, and centred otherwise. */
  function AlignFor(originX: OriginX): (textAlign: TextAlign)
    ensures textAlign == AlignLeft <==> originX == OriginLeft
    ensures textAlign == AlignRight <==> originX == OriginRight
    ensures textAlign == AlignCenter <==> originX != OriginLeft && originX != OriginRight
  {
    match originX
    case OriginLeft => AlignLeft
    case OriginRight => AlignRight
    case OriginCenter => AlignCenter
  }

  /** The words shown by the word-by-word style at `progress`. */
  function WordsShown(text: string, progress: real): (shown: seq<string>)
    ensures |shown| <= |SplitWords(text)| && shown == SplitWords(text)[..|shown|]
  {
    var words := SplitWords(text);
    Take(words, ShownEnd(VisibleCount(progress, |words|, WordDelay), |words|))
  }

  /** The letters shown by the letter-by-letter style at `progress`. */
  function LettersShown(text: string, progress: real): (shown: seq<string>)
    ensures |shown| <= |text| && shown == SplitChars(text)[..|shown|]
  {
    var letters := SplitChars(text);
    Take(letters, ShownEnd(VisibleCount(progress, |letters|, LetterDelay), |letters|))
  }

  /**
   * The text the word-by-word style draws at `progress`: the shown words
   * joined by single spaces. It starts with the first shown word, and it is
   * blank exactly when every shown word is empty.
   */
  function WordText(text: string, progress: real): (t: string)
    ensures WordsShown(text, progress) != [] ==>
      |t| >= |WordsShown(text, progress)[0]| && t[..|WordsShown(text, progress)[0]|] == WordsShown(text, progress)[0]
    ensures IsBlank(t) <==> forall i :: 0 <= i < |WordsShown(text, progress)| ==> WordsShown(text, progress)[i] == []
  {
    var shown := WordsShown(text, progress);
    JoinBlank(shown);
    Join(shown, " ")
  }

  /**
   * The text the letter-by-letter style draws at `progress`: the shown
   * letters joined with nothing between, which is a prefix of the text.
   */
  function LetterText(text: string, progress: real): (t: string)
    ensures |t| == |LettersShown(text, progress)| && t == text[..|t|]
  {
    var shown := LettersShown(text, progress);
    JoinChars(text, |shown|);
    Join(shown, "")
  }

  /** The text a static title adds: always fully opaque, shifted by the translation on both axes. */
  function StaticTitle(a: RenderArgs, canvasWidth: int, translation: real): Layer {
    Layer(a.text, a.textColor, a.fontFamily, a.fontSize, AlignFor(a.originX), canvasWidth as real * 0.8,
          a.originX, a.originY, a.left + translation, a.top + translation, a.scaleFactor, a.scaleFactor, 1.0)
  }

  /** The text a fade-in title adds: placed as the static title, with the fade-in opacity. */
  function FadeIn(a: RenderArgs, canvasWidth: int, translation: real): Layer {
    Layer(a.text, a.textColor, a.fontFamily, a.fontSize, AlignFor(a.originX), canvasWidth as real * 0.8,
          a.originX, a.originY, a.left + translation, a.top + translation, a.scaleFactor, a.scaleFactor,
          FadeInOpacity(a.progress))
  }

  /** The layer a word-by-word title adds, or none when the shown words are blank. */
  function WordByWord(a: RenderArgs, width: int): Option<Layer> {
    var visibleText := WordText(a.text, a.progress);
    if Trim(visibleText) == [] then None
    else Some(Layer(visibleText, a.textColor, a.fontFamily, a.fontSize, AlignFor(a.originX), width as real * 0.8,
                    a.originX, a.originY, a.left, a.top, a.scaleFactor, a.scaleFactor,
                    TokenOpacity(a.progress, |SplitWords(a.text)|, WordDelay)))
  }

  /** The layer a letter-by-letter title adds, or none when the shown letters are blank. */
  function LetterByLetter(a: RenderArgs, width: int): Option<Layer> {
    var visibleText := LetterText(a.text, a.progress);
    if Trim(visibleText) == [] then None
    else Some(Layer(visibleText, a.textColor, a.fontFamily, a.fontSize, AlignFor(a.originX), width as real * 0.8,
                    a.originX, a.originY, a.left, a.top, a.scaleFactor, a.scaleFactor,
                    TokenOpacity(a.progress, |a.text|, LetterDelay)))
  }

  /** The renderer arguments `readNextFrame` builds, with `left` shifted by `dx`. */
  function FrameArgs(cfg: TitleConfig, progress: real, util: Util, dx: real): RenderArgs {
    var zoom := EffectiveZoom(StyleOf(cfg.style), cfg.zoomDirection);
    RenderArgs(cfg.text, cfg.textColor, cfg.fontFamily, cfg.fontSize, progress,
               cfg.anchor.left + dx, cfg.anchor.top, cfg.anchor.originX, cfg.anchor.originY,
               util.zoomParams(progress, zoom, cfg.zoomAmount))
  }

  /** The translation `readNextFrame` computes for the configured style. */
  function FrameTranslation(cfg: TitleConfig, progress: real, util: Util): (t: real)
    ensures StyleOf(cfg.style).IsTokenStyle() ==> t == util.translationParams(progress, NoZoom, cfg.zoomAmount)
    ensures !StyleOf(cfg.style).IsTokenStyle() ==> t == util.translationParams(progress, cfg.zoomDirection, cfg.zoomAmount)
  {
    util.translationParams(progress, EffectiveZoom(StyleOf(cfg.style), cfg.zoomDirection), cfg.zoomAmount)
  }

  /** The layers one frame adds to a canvas `canvasWidth` wide. */
  function Frame(cfg: TitleConfig, progress: real, canvasWidth: int, util: Util): (layers: seq<Layer>)
    ensures |layers| <= 1
    ensures !StyleOf(cfg.style).IsTokenStyle() ==> |layers| == 1
  {
    var translation := FrameTranslation(cfg, progress, util);
    match StyleOf(cfg.style)
    case WordByWordStyle => WordByWord(FrameArgs(cfg, progress, util, translation), cfg.width).ToSeq()
    case LetterByLetterStyle => LetterByLetter(FrameArgs(cfg, progress, util, translation), cfg.width).ToSeq()
    case FadeInStyle => [FadeIn(FrameArgs(cfg, progress, util, 0.0), canvasWidth, translation)]
    case StaticStyle => [StaticTitle(FrameArgs(cfg, progress, util, 0.0), canvasWidth, translation)]
  }

  /** A word-by-word frame is what `WordByWord` draws, shifted by the translation. */
  lemma FrameWordByWord(cfg: TitleConfig, progress: real, canvasWidth: int, util: Util)
    requires StyleOf(cfg.style) == WordByWordStyle
    ensures Frame(cfg, progress, canvasWidth, util)
      == WordByWord(FrameArgs(cfg, progress, util, FrameTranslation(cfg, progress, util)), cfg.width).ToSeq()
  {
  }

  /** A letter-by-letter frame is what `LetterByLetter` draws, shifted by the translation. */
  lemma FrameLetterByLetter(cfg: TitleConfig, progress: real, canvasWidth: int, util: Util)
    requires StyleOf(cfg.style) == LetterByLetterStyle
    ensures Frame(cfg, progress, canvasWidth, util)
      == LetterByLetter(FrameArgs(cfg, progress, util, FrameTranslation(cfg, progress, util)), cfg.width).ToSeq()
  {
  }

  /** A fade-in frame is the one `FadeIn` layer. */
  lemma FrameFadeIn(cfg: TitleConfig, progress: real, canvasWidth: int, util: Util)
    requires StyleOf(cfg.style) == FadeInStyle
    ensures Frame(cfg, progress, canvasWidth, util)
      == [FadeIn(FrameArgs(cfg, progress, util, 0.0), canvasWidth, FrameTranslation(cfg, progress, util))]
  {
  }

  /** A static frame is the one `StaticTitle` layer. */
  lemma FrameStatic(cfg: TitleConfig, progress: real, canvasWidth: int, util: Util)
    requires StyleOf(cfg.style) == StaticStyle
    ensures Frame(cfg, progress, canvasWidth, util)
      == [StaticTitle(FrameArgs(cfg, progress, util, 0.0), canvasWidth, FrameTranslation(cfg, progress, util))]
  {
  }

  /** The drawing surface: its width and the layers added to it so far, in drawing order. */
  class Canvas {
    const width: int
    var layers: seq<Layer>

    constructor (width: int)
      ensures this.width == width && layers == []
    {
      this.width := width;
      layers := [];
    }

    /** `canvas.add(image)`: draw `layer` over everything added before. */
    method Add(layer: Layer)
      modifies this
      ensures layers == old(layers) + [layer]
    {
      layers := layers + [layer];
    }
  }

  /** The alignment choice as the renderers write it: centred unless the origin says otherwise. */
  method ChooseAlign(originX: OriginX) returns (textAlign: TextAlign)
    ensures textAlign == AlignFor(originX)
  {
    textAlign := AlignCenter;
    if originX == OriginLeft {
      textAlign := AlignLeft;
    } else if originX == OriginRight {
      textAlign := AlignRight;
    }
  }

  method RenderStaticTitle(a: RenderArgs, canvas: Canvas, translation: real)
    modifies canvas
    ensures canvas.layers == old(canvas.layers) + [StaticTitle(a, canvas.width, translation)]
  {
    var textAlign := ChooseAlign(a.originX);
    var image := Layer(a.text, a.textColor, a.fontFamily, a.fontSize, textAlign, canvas.width as real * 0.8,
                       a.originX, a.originY, a.left + translation, a.top + translation,
                       a.scaleFactor, a.scaleFactor, 1.0);
    canvas.Add(image);
  }

  method RenderFadeIn(a: RenderArgs, canvas: Canvas, translation: real)
    modifies canvas
    ensures canvas.layers == old(canvas.layers) + [FadeIn(a, canvas.width, translation)]
  {
    var textAlign := ChooseAlign(a.originX);
    var fadeProgress := Min(a.progress / 0.3, 1.0);
    var image := Layer(a.text, a.textColor, a.fontFamily, a.fontSize, textAlign, canvas.width as real * 0.8,
                       a.originX, a.originY, a.left + translation, a.top + translation,
                       a.scaleFactor, a.scaleFactor, fadeProgress);
    canvas.Add(image);
  }

  method RenderWordByWord(a: RenderArgs, canvas: Canvas, width: int)
    modifies canvas
    ensures canvas.layers == old(canvas.layers) + WordByWord(a, width).ToSeq()
  {
    var words := SplitWords(a.text);
    var wordDelay := WordDelay;
    var textAlign := ChooseAlign(a.originX);
    var visibleWords := VisibleCount(a.progress, |words|, wordDelay);
    var visibleText := Join(Take(words, MinInt(visibleWords + 1, |words|)), " ");
    assert visibleText == WordText(a.text, a.progress);
    if Trim(visibleText) != [] {
      var currentWordProgress := TokenProgress(a.progress, |words|, wordDelay, visibleWords);
      var opacity: real;
      if a.progress >= 0.7 {
        opacity := 1.0;
      } else {
        opacity := if visibleWords < |words| - 1 then 1.0 else Min(Max(currentWordProgress, 0.0), 1.0);
      }
      var image := Layer(visibleText, a.textColor, a.fontFamily, a.fontSize, textAlign, width as real * 0.8,
                         a.originX, a.originY, a.left, a.top, a.scaleFactor, a.scaleFactor, opacity);
      assert opacity == TokenOpacity(a.progress, |SplitWords(a.text)|, WordDelay);
      assert WordByWord(a, width) == Some(image);
      canvas.Add(image);
    } else {
      assert WordByWord(a, width) == None;
    }
  }

  method RenderLetterByLetter(a: RenderArgs, canvas: Canvas, width: int)
    modifies canvas
    ensures canvas.layers == old(canvas.layers) + LetterByLetter(a, width).ToSeq()
  {
    var letters := SplitChars(a.text);
    var letterDelay := LetterDelay;
    var textAlign := ChooseAlign(a.originX);
    var visibleLetters := VisibleCount(a.progress, |letters|, letterDelay);
    var visibleText := Join(Take(letters, MinInt(visibleLetters + 1, |letters|)), "");
    assert visibleText == LetterText(a.text, a.progress);
    if Trim(visibleText) != [] {
      var currentLetterProgress := TokenProgress(a.progress, |letters|, letterDelay, visibleLetters);
      var opacity: real;
      if a.progress >= 0.7 {
        opacity := 1.0;
      } else {
        opacity := if visibleLetters < |letters| - 1 then 1.0 else Min(Max(currentLetterProgress, 0.0), 1.0);
      }
      var image := Layer(visibleText, a.textColor, a.fontFamily, a.fontSize, textAlign, width as real * 0.8,
                         a.originX, a.originY, a.left, a.top, a.scaleFactor, a.scaleFactor, opacity);
      assert opacity == TokenOpacity(a.progress, |a.text|, LetterDelay);
      assert LetterByLetter(a, width) == Some(image);
      canvas.Add(image);
    } else {
      assert LetterByLetter(a, width) == None;
    }
  }

  /**
   * `readNextFrame(progress, canvas)`: resolve zoom and translation for the
   * style's effective zoom direction, then hand over to that style's renderer.
   */
  method ReadNextFrame(cfg: TitleConfig, progress: real, canvas: Canvas, util: Util)
    modifies canvas
    ensures canvas.layers == old(canvas.layers) + Frame(cfg, progress, canvas.width, util)
  {
    var style := cfg.style;
    var effectiveZoomDirection :=
      if style == Some("word-by-word") || style == Some("letter-by-letter") then NoZoom else cfg.zoomDirection;
    assert effectiveZoomDirection == EffectiveZoom(StyleOf(style), cfg.zoomDirection);
    var scaleFactor := util.zoomParams(progress, effectiveZoomDirection, cfg.zoomAmount);
    var translationParams := util.translationParams(progress, effectiveZoomDirection, cfg.zoomAmount);
    var anchor := cfg.anchor;

    if style == Some("word-by-word") {
      var args := RenderArgs(cfg.text, cfg.textColor, cfg.fontFamily, cfg.fontSize, progress,
                             anchor.left + translationParams, anchor.top, anchor.originX, anchor.originY, scaleFactor);
      FrameWordByWord(cfg, progress, canvas.width, util);
      assert args == FrameArgs(cfg, progress, util, FrameTranslation(cfg, progress, util));
      RenderWordByWord(args, canvas, cfg.width);
    } else if style == Some("letter-by-letter") {
      var args := RenderArgs(cfg.text, cfg.textColor, cfg.fontFamily, cfg.fontSize, progress,
                             anchor.left + translationParams, anchor.top, anchor.originX, anchor.originY, scaleFactor);
      FrameLetterByLetter(cfg, progress, canvas.width, util);
      assert args == FrameArgs(cfg, progress, util, FrameTranslation(cfg, progress, util));
      RenderLetterByLetter(args, canvas, cfg.width);
    } else if style == Some("fade-in") {
      var args := RenderArgs(cfg.text, cfg.textColor, cfg.fontFamily, cfg.fontSize, progress,
                             anchor.left, anchor.top, anchor.originX, anchor.originY, scaleFactor);
      FrameFadeIn(cfg, progress, canvas.width, util);
      assert args == FrameArgs(cfg, progress, util, 0.0);
      RenderFadeIn(args, canvas, translationParams);
    } else {
      var args := RenderArgs(cfg.text, cfg.textColor, cfg.fontFamily, cfg.fontSize, progress,
                             anchor.left, anchor.top, anchor.originX, anchor.originY, scaleFactor);
      FrameStatic(cfg, progress, canvas.width, util);
      assert args == FrameArgs(cfg, progress, util, 0.0);
      RenderStaticTitle(args, canvas, translationParams);
    }
  }
}
