/**
 * components/news/bias-meter.tsx: how a bias rating is drawn, as the indicator's
 * colour class, its left offset in percent, and the caption under it. The
 * rating arrives as text; `Mixed` is the fourth value the component expects.
 */
module BiasMeter {
  import opened Text

  /** `getBiasColor`. */
  function Color(rating: string): string {
    if rating == "Left" then "bg-blue-600"
    else if rating == "Right" then "bg-red-600"
    else if rating == "Center" then "bg-purple-600"
    else "bg-gray-400"
  }

  /** The percentage behind `getPosition`. */
  function Percent(rating: string): (p: nat)
    ensures p <= 100
  {
    if rating == "Left" then 0
    else if rating == "Center" then 50
    else if rating == "Right" then 100
    else 50
  }

  /** `getPosition`: the indicator's left offset as CSS text. */
  function Position(rating: string): string {
    NatToString(Percent(rating)) + "%"
  }

  /** The caption: `Mixed / Balanced` for a mixed rating, otherwise the rating followed by ` Bias`. */
  function Label(rating: string): (r: string)
    ensures rating != "Mixed" ==> r == rating + " Bias"
    ensures rating == "Mixed" ==> r == "Mixed / Balanced"
  {
    if rating == "Mixed" then "Mixed / Balanced" else rating + " Bias"
  }

  // ---------------------------------------------------------------------------
  // Properties of the meter

  /** The three named leanings sit left to right in that order. */
  lemma PositionsOrdered()
    ensures Percent("Left") < Percent("Center") < Percent("Right")
    ensures Percent("Left") == 0 && Percent("Right") == 100
  {
  }

  /** Every rating other than the named three, `Mixed` among them, sits in the middle and is grey. */
  lemma OtherRatingsCentredGrey(rating: string)
    requires rating != "Left" && rating != "Center" && rating != "Right"
    ensures Percent(rating) == 50 && Color(rating) == "bg-gray-400"
  {
  }

  /** Mixed and Center share the middle position, but never a colour. */
  lemma MixedLooksUnlikeCenter()
    ensures Percent("Mixed") == Percent("Center")
    ensures Color("Mixed") != Color("Center")
  {
  }

  /** Distinct named leanings get distinct colours, none of them the fallback grey. */
  lemma NamedColoursDistinct(a: string, b: string)
    requires a in ["Left", "Center", "Right"] && b in ["Left", "Center", "Right"] && a != b
    ensures Color(a) != Color(b) && Color(a) != "bg-gray-400"
  {
  }

  /** The caption names the rating it shows, and only a mixed rating reads `Mixed / Balanced`. */
  lemma LabelIdentifiesMixed(rating: string)
    ensures Label(rating) == "Mixed / Balanced" <==> rating == "Mixed"
    ensures rating != "Mixed" ==> Label(rating)[..|rating|] == rating
  {
    if rating != "Mixed" {
      var r := Label(rating);
      assert r[|r| - 1] == 's';
    }
  }

  /** The offsets as CSS text: `0%`, `100%`, and `50%` for everything else. */
  lemma {:induction false} PositionText(rating: string)
    ensures Position(rating) == (if rating == "Left" then "0%" else if rating == "Right" then "100%" else "50%")
  {
    assert DigitChar(0) == '0' && DigitChar(5) == '5' && DigitChar(1) == '1';
    assert NatToString(0) == "0";
    assert NatToString(5) == "5";
    assert NatToString(50) == NatToString(5) + [DigitChar(0)] == "50";
    assert NatToString(1) == "1";
    assert NatToString(10) == NatToString(1) + [DigitChar(0)] == "10";
    assert NatToString(100) == NatToString(10) + [DigitChar(0)] == "100";
  }
}
