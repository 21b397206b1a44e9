/**
 * What one frame of a title adds to the canvas, stated over the `Frame`
 * function that `ReadNextFrame` is proved to follow: how many layers, where
 * they sit, how they are scaled, how opaque they are and which text they
 * show, and how the word-by-word and letter-by-letter styles reveal a text.
 */
module TitleProps {
  import opened Wrappers
  import opened JsMath
  import opened JsText
  import opened Reveal
  import opened Title

  /**
   * A frame adds at most one layer. Static and fade-in titles always add
   * exactly one; a token style adds one exactly when its shown text holds a
   * non-whitespace character.
   */
  lemma FrameLayerCount(cfg: TitleConfig, progress: real, canvasWidth: int, util: Util)
    ensures |Frame(cfg, progress, canvasWidth, util)| <= 1
    ensures !StyleOf(cfg.style).IsTokenStyle() ==> |Frame(cfg, progress, canvasWidth, util)| == 1
    ensures StyleOf(cfg.style) == WordByWordStyle ==>
      (|Frame(cfg, progress, canvasWidth, util)| == 1 <==> !IsBlank(WordText(cfg.text, progress)))
    ensures StyleOf(cfg.style) == LetterByLetterStyle ==>
      (|Frame(cfg, progress, canvasWidth, util)| == 1 <==> !IsBlank(LetterText(cfg.text, progress)))
  {
  }

  /**
   * Where a frame's layer sits and what it shows: every style shifts `left`
   * by the translation, only static and fade-in shift `top` too; the layer
   * keeps the anchor's origins, its alignment follows the horizontal origin,
   * and it carries the configured colour, font and size. Static and fade-in
   * titles show the whole text in a box 0.8 of the canvas width; token
   * styles show the revealed text in a box 0.8 of the frame width.
   */
  lemma FramePlacement(cfg: TitleConfig, progress: real, canvasWidth: int, util: Util)
    requires |Frame(cfg, progress, canvasWidth, util)| == 1
    ensures var layer := Frame(cfg, progress, canvasWidth, util)[0];
      && layer.left == cfg.anchor.left + FrameTranslation(cfg, progress, util)
      && layer.top == (if StyleOf(cfg.style).IsTokenStyle() then cfg.anchor.top
                       else cfg.anchor.top + FrameTranslation(cfg, progress, util))
      && layer.originX == cfg.anchor.originX
      && layer.originY == cfg.anchor.originY
      && layer.textAlign == AlignFor(cfg.anchor.originX)
      && layer.fill == cfg.textColor
      && layer.fontFamily == cfg.fontFamily
      && layer.fontSize == cfg.fontSize
      && layer.text == (match StyleOf(cfg.style)
                        case WordByWordStyle => WordText(cfg.text, progress)
                        case LetterByLetterStyle => LetterText(cfg.text, progress)
                        case _ => cfg.text)
      && layer.boxWidth == (if StyleOf(cfg.style).IsTokenStyle() then cfg.width as real * 0.8
                            else canvasWidth as real * 0.8)
  {
  }

  /**
   * Token styles are scaled as if no zoom direction were set; static and
   * fade-in titles use the configured direction. Both axes share the scale.
   */
  lemma FrameZoom(cfg: TitleConfig, progress: real, canvasWidth: int, util: Util)
    requires |Frame(cfg, progress, canvasWidth, util)| == 1
    ensures var layer := Frame(cfg, progress, canvasWidth, util)[0];
      && layer.scaleX == layer.scaleY
      && layer.scaleX == util.zoomParams(progress,
                                          if StyleOf(cfg.style).IsTokenStyle() then NoZoom else cfg.zoomDirection,
                                          cfg.zoomAmount)
  {
  }

  /**
   * Opacity: a static title is opaque, a fade-in title follows the fade-in
   * ramp, a token-style title lies in [0, 1] and is opaque from progress 0.7.
   * No layer is ever more than opaque.
   */
  lemma FrameOpacity(cfg: TitleConfig, progress: real, canvasWidth: int, util: Util)
    requires |Frame(cfg, progress, canvasWidth, util)| == 1
    ensures var o := Frame(cfg, progress, canvasWidth, util)[0].opacity;
      && o <= 1.0
      && (StyleOf(cfg.style) == StaticStyle ==> o == 1.0)
      && (StyleOf(cfg.style) == FadeInStyle ==> o == FadeInOpacity(progress))
      && (StyleOf(cfg.style).IsTokenStyle() ==> 0.0 <= o && (progress >= SettledProgress ==> o == 1.0))
      && (progress >= 0.0 ==> o >= 0.0)
  {
    if StyleOf(cfg.style) == FadeInStyle && progress >= 0.0 && progress < FadeInSpan {
      FadeInRamp(progress);
    }
  }

  /**
   * A token-style layer has the reveal opacity for the number of tokens:
   * words of the split text word by word, characters letter by letter.
   */
  lemma FrameTokenOpacity(cfg: TitleConfig, progress: real, canvasWidth: int, util: Util)
    requires |Frame(cfg, progress, canvasWidth, util)| == 1
    ensures var o := Frame(cfg, progress, canvasWidth, util)[0].opacity;
      && (StyleOf(cfg.style) == WordByWordStyle ==> o == TokenOpacity(progress, |SplitWords(cfg.text)|, WordDelay))
      && (StyleOf(cfg.style) == LetterByLetterStyle ==> o == TokenOpacity(progress, |cfg.text|, LetterDelay))
  {
  }

  /**
   * A token-style title of four or more words (word by word) or characters
   * (letter by letter) is always drawn fully opaque.
   */
  lemma LongTokenTitlesStayOpaque(cfg: TitleConfig, progress: real, canvasWidth: int, util: Util)
    requires || (StyleOf(cfg.style) == WordByWordStyle && |SplitWords(cfg.text)| >= 4)
             || (StyleOf(cfg.style) == LetterByLetterStyle && |cfg.text| >= 4)
    ensures |Frame(cfg, progress, canvasWidth, util)| == 1 ==> Frame(cfg, progress, canvasWidth, util)[0].opacity == 1.0
  {
    if |Frame(cfg, progress, canvasWidth, util)| == 1 {
      FrameTokenOpacity(cfg, progress, canvasWidth, util);
      if StyleOf(cfg.style) == WordByWordStyle {
        LongRevealsStayOpaque(progress, |SplitWords(cfg.text)|, WordDelay);
      } else {
        LongRevealsStayOpaque(progress, |cfg.text|, LetterDelay);
      }
    }
  }

  /** The shown tokens of a non-empty token list are its first `min(floor(progress * n) + 1, n)`. */
  lemma ShownTokensPrefix(tokens: seq<string>, progress: real, delay: real)
    requires |tokens| >= 1 && progress >= 0.0 && delay > 0.0
    ensures 1 <= ShownCount(progress, |tokens|) <= |tokens|
    ensures Take(tokens, ShownEnd(VisibleCount(progress, |tokens|, delay), |tokens|)) == tokens[..ShownCount(progress, |tokens|)]
    ensures progress >= 1.0 ==> ShownCount(progress, |tokens|) == |tokens|
  {
    ShownEndBounds(progress, |tokens|, delay);
  }

  /**
   * Over non-negative progress the word-by-word style shows the first
   * `min(floor(progress * n) + 1, n)` words of the split text (at least one),
   * and all of them from progress 1 on.
   */
  lemma WordsShownPrefix(text: string, progress: real)
    requires progress >= 0.0
    ensures 1 <= ShownCount(progress, |SplitWords(text)|) <= |SplitWords(text)|
    ensures WordsShown(text, progress) == SplitWords(text)[..ShownCount(progress, |SplitWords(text)|)]
    ensures progress >= 1.0 ==> WordsShown(text, progress) == SplitWords(text)
  {
    var words := SplitWords(text);
    ShownTokensPrefix(words, progress, WordDelay);
  }

  /**
   * Over non-negative progress the letter-by-letter style shows the prefix of
   * the text of length `min(floor(progress * n) + 1, n)`, and the whole text
   * from progress 1 on.
   */
  lemma LettersShownPrefix(text: string, progress: real)
    requires progress >= 0.0
    ensures text != [] ==> 1 <= ShownCount(progress, |text|)
    ensures ShownCount(progress, |text|) <= |text|
    ensures LetterText(text, progress) == text[..ShownCount(progress, |text|)]
    ensures progress >= 1.0 ==> LetterText(text, progress) == text
  {
    var k := ShownCount(progress, |text|);
    if text != [] {
      ShownEndBounds(progress, |text|, LetterDelay);
    } else {
      assert (progress * |text| as real).Floor == 0;
    }
    assert LettersShown(text, progress) == SplitChars(text)[..k];
    JoinChars(text, k);
  }

  /**
   * A title made of single-space-separated words is revealed word by word:
   * the shown words are a prefix of the words it was written with.
   */
  lemma JoinedWordsReveal(words: seq<string>, progress: real)
    requires |words| >= 1 && progress >= 0.0
    requires forall i :: 0 <= i < |words| ==> words[i] != [] && NoSpace(words[i])
    ensures 1 <= ShownCount(progress, |words|)
    ensures WordsShown(Join(words, " "), progress) == words[..ShownCount(progress, |words|)]
    ensures WordText(Join(words, " "), progress) == Join(words[..ShownCount(progress, |words|)], " ")
  {
    SplitJoin(words);
    WordsShownPrefix(Join(words, " "), progress);
    assert SplitWords(Join(words, " ")) == words;
  }

  /**
   * Word by word, any whitespace run between two words (several spaces, a
   * tab, a line break) is drawn as one space once the title is fully shown.
   */
  lemma WhitespaceRunsBecomeSpaces(first: string, gap: string, second: string, progress: real)
    requires first != [] && NoSpace(first) && second != [] && NoSpace(second)
    requires gap != [] && IsBlank(gap) && progress >= 1.0
    ensures WordsShown(first + gap + second, progress) == [first, second]
    ensures WordText(first + gap + second, progress) == first + " " + second
  {
    var text := first + gap + second;
    SplitWordsGap(first, gap, second);
    SplitWordsNoSpace(second);
    assert SplitWords(text) == [first, second];
    WordsShownPrefix(text, progress);
    assert Join([first, second], " ") == first + " " + Join([second], " ");
  }

  /** A title written on two lines, "Hello" and "world", ends up as "Hello world". */
  lemma TwoLineTitleJoinsWithSpace()
    ensures WordText("Hello\nworld", 1.0) == "Hello world"
  {
    var first, gap, second := "Hello", "\n", "world";
    assert NoSpace(first) && NoSpace(second) && IsBlank(gap);
    assert first + gap + second == "Hello\nworld";
    assert first + " " + second == "Hello world";
    WhitespaceRunsBecomeSpaces(first, gap, second, 1.0);
  }

  /** A blank title is never drawn in a token style, whatever the progress. */
  lemma BlankTokenTitleDrawsNothing(cfg: TitleConfig, progress: real, canvasWidth: int, util: Util)
    requires IsBlank(cfg.text) && StyleOf(cfg.style).IsTokenStyle()
    ensures Frame(cfg, progress, canvasWidth, util) == []
  {
    FrameLayerCount(cfg, progress, canvasWidth, util);
    if StyleOf(cfg.style) == WordByWordStyle {
      var words := SplitWords(cfg.text);
      SplitWordsBlank(cfg.text);
      var shown := WordsShown(cfg.text, progress);
      assert forall i :: 0 <= i < |shown| ==> shown[i] == words[i];
      JoinBlank(shown);
    } else {
      var shown := LettersShown(cfg.text, progress);
      JoinChars(cfg.text, |shown|);
      assert shown == SplitChars(cfg.text)[..|shown|];
      assert LetterText(cfg.text, progress) == cfg.text[..|shown|];
    }
  }

  /**
   * A title whose first character is not whitespace is drawn on every frame
   * of non-negative progress, in every style: its first word or letter is
   * always shown.
   */
  lemma LeadingGlyphAlwaysDrawn(cfg: TitleConfig, progress: real, canvasWidth: int, util: Util)
    requires cfg.text != [] && !IsSpace(cfg.text[0]) && progress >= 0.0
    ensures |Frame(cfg, progress, canvasWidth, util)| == 1
  {
    FrameLayerCount(cfg, progress, canvasWidth, util);
    var text := cfg.text;
    if StyleOf(cfg.style) == WordByWordStyle {
      var words := SplitWords(text);
      SplitWordsFirstEmpty(text);
      WordsShownPrefix(text, progress);
      var shown := WordsShown(text, progress);
      assert shown[0] == words[0] != [];
      JoinBlank(shown);
    } else if StyleOf(cfg.style) == LetterByLetterStyle {
      LettersShownPrefix(text, progress);
      var visible := LetterText(text, progress);
      assert visible[0] == text[0];
    }
  }

  /** The factory's defaults: white text, the default font, zoom in by 0.2, centred position. */
  lemma SetupDefaults(width: int, height: int, params: TitleParams, util: Util)
    ensures var cfg := Setup(width, height, params, util);
      && (params.textColor.None? ==> cfg.textColor == "#ffffff")
      && (params.fontFamily.None? ==> cfg.fontFamily == util.defaultFontFamily)
      && (params.zoomDirection.None? ==> cfg.zoomDirection == ZoomIn)
      && (params.zoomAmount.None? ==> cfg.zoomAmount == 0.2)
      && (params.position.None? ==> cfg.anchor == util.positionProps("center", width, height))
      && cfg.fontSize == FontSizeAbs(params.fontSize, width, height)
  {
  }
}
