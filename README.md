# editly `title` frame source, modelled in Dafny

editly renders a video from an edit spec. Each clip is made of layers. The
`title` layer draws one block of animated text (a text box, which may wrap or
hold line breaks) on every frame. Its frame source
(`src/sources/title.ts`) works in two steps:

- A factory runs once per title. It applies the parameter defaults, derives the
  absolute font size and resolves the position into an anchor.
- `readNextFrame(progress, canvas)` runs on every frame. It chooses one of four
  styles: static, `fade-in`, `word-by-word` or `letter-by-letter`. For the two
  token styles it switches zoom off. It then calls that style's renderer, which
  adds at most one image to the fabric canvas.

This project models that file:

- `wrappers.dfy`: `Option`, for omitted parameters and for a frame that draws nothing.
- `js_math.dfy`: `Math.round`, `Math.min`/`Math.max` and the clamp, over exact reals.
- `js_text.dfy`: the JavaScript string operations the renderers use. These are
  the `\s` whitespace class, `trim()`, `split(/\s+/)`, `split("")`, `join` and
  `slice(0, end)`, including its negative `end`. It also holds the lemmas about
  them: any whitespace run separates words, split undoes join, which pieces
  can be empty, and letter prefixes.
- `reveal.dfy`: the timing arithmetic. This is the visible-token count (the
  per-token delay cancels out), the newest token's progress, the reveal opacity
  with its 0.7 cut-off, and the fade-in ramp.
- `title.dfy`: the data model and one function per style that gives the layer
  (`StaticTitle`, `FadeIn`, `WordByWord`, `LetterByLetter`), with `Frame`
  choosing among them. It also
  holds the canvas as a class with a sequence of layers, and the imperative
  renderers and dispatcher. Each of those is proved to append exactly what its
  function gives.
- `title_props.dfy`: properties of a whole frame. A frame adds at most one
  layer. The model states where that layer sits, how it is zoomed, how opaque it
  is and which text it shows, and how the token styles reveal a text (a
  whitespace run between words is drawn as one space).

The helpers imported from `../util.js` are not part of this model. They are
`getPositionProps`, `getZoomParams`, `getTranslationParams` and
`defaultFontFamily`. The model receives them as fields of the `Util` parameter,
and the proofs hold for every choice of them.

Three points about `src/sources/title.ts` shape the model:

- The frame source draws no outline, shadow or glow, no second layer, and has
  no `animationDuration` timing, so a frame draws at most one layer.
- Fade-in opacity is `Math.min(progress / 0.3, 1)`. It has an upper bound but
  no lower one (`Reveal.FadeInOpacity`).
- The token styles pass the null zoom direction, but they still add
  `getTranslationParams` to `left` (`TitleProps.FramePlacement`).

## Model

| member | source | states |
|---|---|---|
| `JsMath.Round` | src/sources/title.ts:23 | `Math.round`: the argument lies in [r − 0.5, r + 0.5), so r is the nearest integer, halves going up |
| `JsMath.Clamp` | src/sources/title.ts:292 | `Math.min(Math.max(x, 0), 1)` lies in [0, 1] and leaves values already in range unchanged |
| `Title.FontSizeAbs` | src/sources/title.ts:23 | a truthy `fontSize` is rounded to the nearest integer; an absent or zero one becomes a tenth of `min(width, height)`, rounded |
| `TitleProps.SetupDefaults` | src/sources/title.ts:13-25 | the factory defaults: white text, the default font family, zoom direction `in`, zoom amount 0.2, position `center`; the font size is `FontSizeAbs` |
| `Title.Setup` | src/sources/title.ts:13-25 | every parameter that is given is kept as it is (colour, font family, zoom direction and amount, style, text); a given position is resolved by `getPositionProps`; the font size is `FontSizeAbs` |
| `Title.StyleOf` | src/sources/title.ts:43-112 | the `switch (style)`: each of the three style strings selects its renderer, and any other value, or none, is the static title (the `default` branch) |
| `Title.EffectiveZoom` | src/sources/title.ts:30-31 | the effective direction is null exactly when the style is a token style or the configured direction is null; other styles keep the configured direction |
| `Title.AlignFor` | src/sources/title.ts:143-146 | alignment is left exactly when `originX` is left, right exactly when it is right, and centred otherwise |
| `Title.ChooseAlign` | src/sources/title.ts:261-264 | the renderers' `let`/`if` alignment choice gives `AlignFor(originX)` |
| `JsText.Trim` | src/sources/title.ts:272 | `trim()` is the string with its whitespace ends cut off: the part after the leading whitespace, followed only by whitespace; it is empty exactly when the string is blank, and otherwise begins and ends with non-whitespace |
| `JsText.IsSpace` | src/sources/title.ts:257 | the `\s` class (also the set `trim()` removes); `JsText.WhitespaceSet` lists its 25 code points one by one |
| `JsText.WhitespaceSet` | src/sources/title.ts:257 | a character is whitespace exactly when it is one of the 25 ECMAScript WhiteSpace and LineTerminator code points |
| `JsText.SplitWords` | src/sources/title.ts:257 | `split(/\s+/)` yields at least one piece and no piece contains whitespace |
| `JsText.SplitJoin` | src/sources/title.ts:257 | splitting undoes joining with single spaces, for non-empty words without whitespace |
| `JsText.SplitWordsGap` | src/sources/title.ts:257 | a word, then a non-empty run of any whitespace (spaces, tabs, line breaks), then a text starting with non-whitespace split into that word followed by the pieces of the text |
| `JsText.SplitWordsInnerNonEmpty` | src/sources/title.ts:257 | only the first and the last piece of the split can be empty |
| `JsText.SplitWordsFirstEmpty` | src/sources/title.ts:257 | the first piece is empty exactly when the text is empty or starts with whitespace |
| `JsText.SplitWordsBlank` | src/sources/title.ts:257 | every piece of a blank text's split is empty |
| `JsText.SplitChars` | src/sources/title.ts:336 | `split("")` yields one single-character string per character, in order |
| `JsText.JoinChars` | src/sources/title.ts:349 | joining the first k letters with `""` gives the first k characters of the text |
| `JsText.Join` | src/sources/title.ts:270 | `join` of no parts is empty, and a join of one or more parts starts with the first part |
| `JsText.JoinBlank` | src/sources/title.ts:270-272 | words without whitespace, joined by spaces, are blank exactly when every word is empty |
| `JsText.Take` | src/sources/title.ts:270 | `slice(0, end)` is a prefix of length `min(end, n)`, or `max(n + end, 0)` for a negative `end` |
| `Reveal.VisibleCount` | src/sources/title.ts:258-267 | `floor(progress * (n * delay) / delay)` equals `floor(progress * n)`: the delay cancels |
| `Reveal.TokenProgress` | src/sources/title.ts:284 | the newest token's progress is `progress * n - visible` |
| `Reveal.TokenProgressIsFraction` | src/sources/title.ts:284 | that progress is the fractional part of `progress * n`, so it lies in [0, 1) |
| `Reveal.RevealOpacity` | src/sources/title.ts:287-293 | the token opacity lies in [0, 1]; it is 1 from progress 0.7 on and while a later token is still to come, and otherwise it is the newest token's progress |
| `Reveal.TokenOpacity` | src/sources/title.ts:284-293 | the opacity of a token style lies in [0, 1] and is 1 from progress 0.7 on and while `floor(progress * n)` is below `n - 1` |
| `Reveal.LastTokenFades` | src/sources/title.ts:288-293 | below 0.7, once the last token is being revealed, the opacity is the fractional part of `progress * n` |
| `Reveal.LongRevealsStayOpaque` | src/sources/title.ts:288-293 | with four or more tokens the opacity is always 1, because the last token starts after the 0.7 cut-off |
| `Reveal.ShownEndBounds` | src/sources/title.ts:267-270 | for progress >= 0 the slice end is `min(floor(progress * n) + 1, n)`: between 1 and n, equal to n from progress 1 on |
| `Reveal.FadeInOpacity` | src/sources/title.ts:215 | the fade-in opacity never exceeds 1, equals 1 from progress 0.3 on and is below 1 before |
| `Reveal.FadeInMonotone` | src/sources/title.ts:215 | the fade-in opacity does not decrease as progress grows |
| `Reveal.FadeInRamp` | src/sources/title.ts:214-215 | below 0.3 the fade-in opacity is `progress / 0.3`, and it is non-negative for non-negative progress |
| `Title.Canvas.Add` | src/sources/title.ts:169 | `canvas.add` appends the layer after every earlier one and changes nothing else |
| `Title.RenderStaticTitle` | src/sources/title.ts:117-170 | appends exactly one layer, `StaticTitle`: opacity 1, translation added to `left` and `top`, box width 0.8 of the canvas width |
| `Title.RenderFadeIn` | src/sources/title.ts:172-228 | appends exactly one layer, `FadeIn`: placed like the static title, with opacity `min(progress / 0.3, 1)` |
| `Title.RenderWordByWord` | src/sources/title.ts:230-307 | appends `WordByWord`: the shown words joined by spaces with the reveal opacity, or nothing when that text is blank |
| `Title.RenderLetterByLetter` | src/sources/title.ts:309-388 | appends `LetterByLetter`: the shown letters joined with no separator, with the reveal opacity, or nothing when that text is blank |
| `Title.ReadNextFrame` | src/sources/title.ts:28-113 | appends exactly the layers of `Frame`: zoom and translation for the style's effective direction, then that style's renderer |
| `Title.Frame` | src/sources/title.ts:28-113 | a frame has at most one layer, and exactly one for the static and fade-in styles |
| `Title.WordsShown` | src/sources/title.ts:266-270 | the shown words are a prefix of the split text |
| `Title.LettersShown` | src/sources/title.ts:345-349 | the shown letters are a prefix of the text's letters |
| `Title.WordText` | src/sources/title.ts:270 | the drawn text begins with the first shown word and is blank exactly when every shown word is empty; `TitleProps.JoinedWordsReveal` and `TitleProps.WhitespaceRunsBecomeSpaces` give its content, and `TitleProps.FrameLayerCount` when it is drawn |
| `Title.LetterText` | src/sources/title.ts:349 | the drawn text is the prefix of the text as long as the number of shown letters (see `TitleProps.LettersShownPrefix`) |
| `Title.FrameTranslation` | src/sources/title.ts:30-41 | the translation is computed with no zoom for the word-by-word and letter-by-letter styles, and with the configured zoom direction otherwise |
| `TitleProps.FrameLayerCount` | src/sources/title.ts:43-112 | a frame adds at most one layer; static and fade-in always add one; a token style adds one exactly when its shown text is not blank |
| `TitleProps.FramePlacement` | src/sources/title.ts:43-112 | `left` is shifted by the translation in every style, `top` only for static and fade-in; origins, alignment, colour, font and size come from the configuration; static and fade-in show the whole text in a box 0.8 of the canvas width, token styles the revealed text in a box 0.8 of the frame width |
| `TitleProps.FrameZoom` | src/sources/title.ts:29-41 | token styles are scaled with the null zoom direction, other styles with the configured one; both axes use the same scale |
| `TitleProps.FrameOpacity` | src/sources/title.ts:159-383 | static opacity is 1, fade-in follows the ramp, token opacity lies in [0, 1] and is 1 from 0.7 on; opacity is never above 1 |
| `TitleProps.FrameTokenOpacity` | src/sources/title.ts:284-293 | a word-by-word layer has the reveal opacity for the number of split words, a letter-by-letter layer the one for the number of characters |
| `TitleProps.LongTokenTitlesStayOpaque` | src/sources/title.ts:288-293 | a token-style title of four or more words (or characters) is always drawn fully opaque |
| `TitleProps.WordsShownPrefix` | src/sources/title.ts:266-270 | for progress >= 0 the shown words are the first `min(floor(progress * n) + 1, n)` pieces of the split, at least one, and all of them from progress 1 on |
| `TitleProps.LettersShownPrefix` | src/sources/title.ts:345-349 | for progress >= 0 the shown text is the prefix of length `min(floor(progress * n) + 1, n)`, and the whole text from progress 1 on |
| `TitleProps.JoinedWordsReveal` | src/sources/title.ts:257-270 | a text written as single-spaced words reveals a prefix of exactly those words |
| `TitleProps.WhitespaceRunsBecomeSpaces` | src/sources/title.ts:257-270 | word by word, two words separated by any whitespace run are drawn, once fully shown, as the two words joined by one space |
| `TitleProps.TwoLineTitleJoinsWithSpace` | src/sources/title.ts:257-270 | the two-line title "Hello\nworld" is drawn as "Hello world": the line break is lost |
| `TitleProps.BlankTokenTitleDrawsNothing` | src/sources/title.ts:272-306 | a blank text is never drawn in a token style, at any progress |
| `TitleProps.LeadingGlyphAlwaysDrawn` | src/sources/title.ts:351-387 | a text whose first character is not whitespace is drawn on every frame with progress >= 0, in every style |

## Left out

- Fabric rendering is not modelled: `Textbox` construction, `cloneAsImage`, `set` and the pixels they produce are foreign library calls. A layer is a record of the text-box settings and the image placement.
- `getPositionProps`, `getZoomParams`, `getTranslationParams` and `defaultFontFamily` from `../util.js` are not part of this model. They are fields of the `Util` parameter, so nothing is assumed about them.
- `defineFrameSource` registration and the `async`/`await` plumbing are pipeline glue; each renderer runs to completion before the frame ends.
- IEEE-754 arithmetic is not modelled. Progress, opacity and positions are exact reals. The cancellation of `wordDelay`/`letterDelay` in `Reveal.VisibleCount` holds exactly only over the reals, where floating point may round `progress * n * delay / delay` across an integer. NaN and infinite progress are not modelled.
- `Title.FontSizeAbs`: a NaN `fontSize` is falsy in JavaScript and falls back to the default. The model has no NaN, so only an omitted or zero size falls back.
- `JsText.SplitChars`: `split("")` splits into UTF-16 code units. The model splits into characters, so the two differ on characters outside the Basic Multilingual Plane.
- The object form of editly positions is not modelled. Only the position keyword reaches `getPositionProps`, which is the only code that reads it.
- `Title.AlignFor`: fabric also accepts numeric origins. The model's origins are the three keywords, so "centred otherwise" covers only `center`.
- The canvas width is fixed for the canvas's lifetime. The renderers only read it.
