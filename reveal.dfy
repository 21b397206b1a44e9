/**
 * The timing arithmetic of the title styles: how many tokens of a
 * word-by-word or letter-by-letter title are shown at a given progress,
 * how opaque the newest shown token is, and the fade-in opacity.
 * Progress and opacity are exact reals.
 */
module Reveal {
  import opened JsMath

  /** Seconds per word in the word-by-word style. */
  const WordDelay: real := 0.15

  /** Seconds per letter in the letter-by-letter style. */
  const LetterDelay: real := 0.05

  /** Progress from which every token style is drawn fully opaque. */
  const SettledProgress: real := 0.7

  /** Progress at which a fade-in title reaches full opacity. */
  const FadeInSpan: real := 0.3

  /**
   * `Math.floor((progress * totalDuration) / delay)` with
   * `totalDuration = n * delay`: the number of tokens whose reveal window
   * has fully passed. The delay cancels, so the count depends only on
   * `progress * n`.
   */
  function VisibleCount(progress: real, n: nat, delay: real): (v: int)
    requires delay > 0.0
    ensures v == (progress * n as real).Floor
  {
    assert progress * (n as real * delay) / delay == progress * n as real by {
      assert progress * (n as real * delay) == (progress * n as real) * delay;
    }
    ((progress * (n as real * delay)) / delay).Floor
  }

  /**
   * `Math.min(visible + 1, n)`: the slice end for the shown tokens, which
   * include the one currently being revealed.
   */
  function ShownEnd(visible: int, n: nat): int {
    MinInt(visible + 1, n)
  }

  /**
   * The number of tokens a token style shows at non-negative progress:
   * `floor(progress * n) + 1`, capped at `n`.
   */
  function ShownCount(progress: real, n: nat): int {
    MinInt((progress * n as real).Floor + 1, n)
  }

  /**
   * `(progress * totalDuration - visible * delay) / delay`: how far into the
   * reveal window of the newest token the animation is, in windows.
   */
  function TokenProgress(progress: real, n: nat, delay: real, visible: int): (t: real)
    requires delay > 0.0
    ensures t == progress * n as real - visible as real
  {
    assert (progress * (n as real * delay) - visible as real * delay) == (progress * n as real - visible as real) * delay;
    (progress * (n as real * delay) - visible as real * delay) / delay
  }

  /**
   * Opacity of a token-style title: fully opaque once progress reaches 0.7,
   * and fully opaque while some token after the shown ones is still to come;
   * otherwise the clamped progress of the newest token.
   */
  function RevealOpacity(progress: real, visible: int, n: nat, current: real): (o: real)
    ensures 0.0 <= o <= 1.0
    ensures progress >= SettledProgress ==> o == 1.0
    ensures visible < n - 1 ==> o == 1.0
    ensures progress < SettledProgress && visible >= n - 1 && 0.0 <= current <= 1.0 ==> o == current
  {
    if progress >= SettledProgress then 1.0
    else if visible < n - 1 then 1.0
    else Clamp(current, 0.0, 1.0)
  }

  /** The opacity of a token style for `n` tokens at `progress`. */
  function TokenOpacity(progress: real, n: nat, delay: real): (o: real)
    requires delay > 0.0
    ensures 0.0 <= o <= 1.0
    ensures progress >= SettledProgress ==> o == 1.0
    ensures (progress * n as real).Floor < n - 1 ==> o == 1.0
  {
    var v := VisibleCount(progress, n, delay);
    RevealOpacity(progress, v, n, TokenProgress(progress, n, delay, v))
  }

  /** `Math.min(progress / 0.3, 1)`: fade-in opacity; there is no lower clamp. */
  function FadeInOpacity(progress: real): (o: real)
    ensures o <= 1.0
    ensures progress >= FadeInSpan ==> o == 1.0
    ensures progress < FadeInSpan ==> o < 1.0
  {
    Min(progress / FadeInSpan, 1.0)
  }

  /** Multiplying by a natural number keeps the order of two reals. */
  lemma MulMonotone(a: real, b: real, n: nat)
    requires a <= b
    ensures a * n as real <= b * n as real
  {
  }

  /**
   * Over non-negative progress at least one token is shown and never more
   * than there are; from progress 1 on all are shown, and below it exactly
   * `floor(progress * n) + 1`.
   */
  lemma ShownEndBounds(progress: real, n: nat, delay: real)
    requires delay > 0.0 && n >= 1 && progress >= 0.0
    ensures ShownEnd(VisibleCount(progress, n, delay), n) == ShownCount(progress, n)
    ensures 1 <= ShownCount(progress, n) <= n
    ensures progress >= 1.0 ==> ShownCount(progress, n) == n
    ensures progress < 1.0 ==> ShownCount(progress, n) == (progress * n as real).Floor + 1
  {
    MulMonotone(0.0, progress, n);
    assert (progress * n as real).Floor >= 0;
    if progress >= 1.0 {
      MulMonotone(1.0, progress, n);
    } else {
      assert progress * n as real < n as real by {
        assert progress * n as real <= n as real;
        if n >= 1 {
          assert (1.0 - progress) * n as real > 0.0;
        }
      }
    }
  }

  /**
   * The newest token's progress is the fractional part of `progress * n`,
   * so it lies in [0, 1) and the clamp never changes it.
   */
  lemma TokenProgressIsFraction(progress: real, n: nat, delay: real)
    requires delay > 0.0
    ensures var v := VisibleCount(progress, n, delay);
      var t := TokenProgress(progress, n, delay, v);
      0.0 <= t < 1.0 && t == progress * n as real - (progress * n as real).Floor as real
  {
  }

  /**
   * Below progress 0.7, once the last token is the one being revealed, the
   * opacity is the fractional part of `progress * n`.
   */
  lemma LastTokenFades(progress: real, n: nat, delay: real)
    requires delay > 0.0 && progress < SettledProgress
    requires VisibleCount(progress, n, delay) >= n - 1
    ensures TokenOpacity(progress, n, delay) == progress * n as real - (progress * n as real).Floor as real
  {
    TokenProgressIsFraction(progress, n, delay);
  }

  /**
   * With four or more tokens the last token only starts at progress
   * (n - 1) / n >= 0.75, after the 0.7 cut-off, so the title is never drawn
   * translucent.
   */
  lemma LongRevealsStayOpaque(progress: real, n: nat, delay: real)
    requires delay > 0.0 && n >= 4
    ensures TokenOpacity(progress, n, delay) == 1.0
  {
    if progress < SettledProgress {
      assert progress * n as real < SettledProgress * n as real by {
        assert (SettledProgress - progress) * n as real > 0.0;
      }
    }
  }

  /** Fade-in opacity never decreases as progress grows. */
  lemma FadeInMonotone(p: real, q: real)
    requires p <= q
    ensures FadeInOpacity(p) <= FadeInOpacity(q)
  {
  }

  /** Fade-in opacity is progress / 0.3 below 0.3, so it is 0 at 0 and 0.5 at 0.15. */
  lemma FadeInRamp(progress: real)
    requires progress < FadeInSpan
    ensures FadeInOpacity(progress) * FadeInSpan == progress
    ensures progress >= 0.0 ==> FadeInOpacity(progress) >= 0.0
  {
  }
}
