/**
 * The statistics counters of the benefits section. Each counter is tweened from 0 to
 * the number written in its stat text with every non-digit removed, and each update
 * writes the current whole value back: stats whose text contains `K` are written in
 * thousands ("1.2K", "3K"), the others as the plain number.
 *
 * The tween itself (its easing and snapping) is not modelled: a counter update is given
 * the whole value it shows, the ceiling of the tweened number, as a `nat`.
 */
module Benefits {
  import opened Numerals

  /** The stat texts of the section, in order. */
  const Stats: seq<string> := ["500K+", "98", "15", "24"]

  /** `text.replace(/\D/g, '')`: the digits of the text, in order. */
  function StripNonDigits(s: string): (d: string)
    ensures AllDigits(d)
    ensures |d| <= |s|
  {
    if s == [] then []
    else (if IsDigit(s[0]) then [s[0]] else []) + StripNonDigits(s[1..])
  }

  /** Stripping works piece by piece: the digits of a concatenation are the digits of the parts. */
  lemma {:induction false} StripConcat(a: string, b: string)
    ensures StripNonDigits(a + b) == StripNonDigits(a) + StripNonDigits(b)
  {
    if a == [] {
      assert a + b == b;
    } else {
      assert (a + b)[0] == a[0];
      assert (a + b)[1..] == a[1..] + b;
      StripConcat(a[1..], b);
    }
  }

  /** A text made of digits only is left as it is, and a text without digits becomes empty. */
  lemma {:induction false} StripKeepsDigitsDropsOthers(s: string)
    ensures AllDigits(s) ==> StripNonDigits(s) == s
    ensures (forall i :: 0 <= i < |s| ==> !IsDigit(s[i])) ==> StripNonDigits(s) == []
  {
    if s != [] {
      StripKeepsDigitsDropsOthers(s[1..]);
      assert s == [s[0]] + s[1..];
    }
  }

  /** The number a counter is tweened to: its digits read as a number. */
  function TweenTarget(finalText: string): (target: nat)
    ensures AllDigits(finalText) ==> target == ParseNat(finalText)
  {
    StripKeepsDigitsDropsOthers(finalText);
    ParseNat(StripNonDigits(finalText))
  }

  /**
   * The thousands format: below 1000 the plain number; otherwise the whole thousands, a
   * point and the hundreds digit unless the value is a whole number of thousands, then `K`.
   */
  function FormatK(v: nat): (t: string)
    ensures |t| >= 1
  {
    if v >= 1000 then
      NatToString(v / 1000) + (if v % 1000 == 0 then "" else "." + [DigitChar((v % 1000) / 100)]) + "K"
    else NatToString(v)
  }

  /** What a counter update writes for the whole value `v`. */
  function CounterText(finalText: string, v: nat): (t: string)
    ensures |t| >= 1
  {
    if 'K' in finalText then FormatK(v) else NatToString(v)
  }

  /** Without `K` in the stat text, the counter shows the value itself: it reads back as `v`. */
  lemma PlainCounterReadsBack(finalText: string, v: nat)
    requires 'K' !in finalText
    ensures AllDigits(CounterText(finalText, v))
    ensures ParseNat(CounterText(finalText, v)) == v
  {
    ParseNatToString(v);
  }

  /** Below 1000 a `K` counter shows the plain number, without a suffix. */
  lemma SmallKCounterHasNoSuffix(v: nat)
    requires v < 1000
    ensures AllDigits(FormatK(v)) && ParseNat(FormatK(v)) == v
    ensures 'K' !in FormatK(v)
  {
    ParseNatToString(v);
  }

  /**
   * From 1000 on, a `K` counter ends in `K`. A whole number of thousands is written as the
   * thousands alone; otherwise the text is the thousands, a point and one digit, and the value
   * it reads as is `v` truncated to its hundreds.
   */
  lemma KCounterTruncatesToHundreds(v: nat)
    requires v >= 1000
    ensures FormatK(v)[|FormatK(v)| - 1] == 'K'
    ensures v % 1000 == 0 ==> FormatK(v) == NatToString(v / 1000) + "K" && ParseNat(NatToString(v / 1000)) * 1000 == v
    ensures v % 1000 != 0 ==>
      var t := FormatK(v);
      var whole := NatToString(v / 1000);
      && |t| == |whole| + 3
      && t[..|whole|] == whole && t[|whole|] == '.' && IsDigit(t[|whole| + 1])
      && var shown := ParseNat(whole) * 1000 + DigitValue(t[|whole| + 1]) * 100;
         shown <= v < shown + 100
  {
    ParseNatToString(v / 1000);
    var whole := NatToString(v / 1000);
    if v % 1000 != 0 {
      var t := FormatK(v);
      assert t == whole + ("." + [DigitChar((v % 1000) / 100)]) + "K";
      assert t[|whole| + 1] == DigitChar((v % 1000) / 100);
      assert t[..|whole|] == whole;
    }
  }

  /** The text a counter shows when its tween ends, as written: formatted from the digits' value. */
  function FinalDisplay(finalText: string): (t: string)
    ensures 'K' !in finalText ==> t == NatToString(TweenTarget(finalText))
  {
    CounterText(finalText, TweenTarget(finalText))
  }

  /**
   * As written, a `K` stat whose digits read below 1000 never reaches the thousands format:
   * its counter ends on the bare number, without the `K`.
   */
  lemma KStatLosesSuffix(finalText: string)
    requires 'K' in finalText && TweenTarget(finalText) < 1000
    ensures 'K' !in FinalDisplay(finalText)
    ensures ParseNat(FinalDisplay(finalText)) == TweenTarget(finalText)
  {
    SmallKCounterHasNoSuffix(TweenTarget(finalText));
  }

  /** The "500K+" counter ends on "500". */
  lemma BoxesDeliveredEndsOn500()
    ensures TweenTarget("500K+") == 500
    ensures FinalDisplay("500K+") == "500"
  {
    assert StripNonDigits("500K+") == "500" by {
      assert "500K+" == "500" + "K+";
      StripConcat("500", "K+");
      StripKeepsDigitsDropsOthers("500");
      StripKeepsDigitsDropsOthers("K+");
    }
    assert ParseNat("500") == 500 by {
      assert "500"[..2] == "50" && "50"[..1] == "5" && "5"[..0] == "";
    }
    assert NatToString(500) == "500";
  }

  /** The corrected tween target: a `K` stat counts up to its digits in thousands. */
  function CorrectedTweenTarget(finalText: string): (target: nat)
    ensures 'K' in finalText ==> target == 1000 * TweenTarget(finalText)
    ensures 'K' !in finalText ==> target == TweenTarget(finalText)
  {
    if 'K' in finalText then 1000 * TweenTarget(finalText) else TweenTarget(finalText)
  }

  /** The text a counter shows when its corrected tween ends. */
  function CorrectedFinalDisplay(finalText: string): (t: string)
    ensures 'K' !in finalText ==> t == FinalDisplay(finalText)
  {
    CounterText(finalText, CorrectedTweenTarget(finalText))
  }

  /**
   * With the corrected target, a `K` stat with a non-zero number ends on exactly that number
   * followed by `K`.
   */
  lemma CorrectedKStatKeepsSuffix(finalText: string)
    requires 'K' in finalText && TweenTarget(finalText) >= 1
    ensures CorrectedFinalDisplay(finalText) == NatToString(TweenTarget(finalText)) + "K"
  {
    var d := TweenTarget(finalText);
    assert (1000 * d) / 1000 == d && (1000 * d) % 1000 == 0;
  }

  /** With the corrected target the "500K+" counter ends on "500K". */
  lemma BoxesDeliveredEndsOn500K()
    ensures CorrectedFinalDisplay("500K+") == "500K"
  {
    BoxesDeliveredEndsOn500();
    CorrectedKStatKeepsSuffix("500K+");
    assert NatToString(500) == "500";
  }

  /** The stats without `K` end on their own text, as written and as corrected. */
  lemma PlainStatsEndOnTheirText(k: nat)
    requires 1 <= k < |Stats|
    ensures FinalDisplay(Stats[k]) == Stats[k]
    ensures CorrectedFinalDisplay(Stats[k]) == Stats[k]
  {
    var s := Stats[k];
    assert AllDigits(s) && |s| == 2 && s[0] != '0' && 'K' !in s;
    NatToStringParseNat(s);
  }
}
