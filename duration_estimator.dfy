/**
  Duration Estimator: turns a spoken duration in seconds and a language name into
  the number of words the script should have.

  Every speaking rate in the table has one decimal digit, so rates are kept in
  tenths of a word per second and the whole computation is exact integer
  arithmetic: d seconds at w tenths with the 5% buffer is d * w / 10 * 105 / 100
  = 21 * d * w / 200 words.
*/
module DurationEstimator {
  import opened Strings

  /** Words per second, in tenths, by language name. */
  const RateTable: map<string, nat> := map[
    "English" := 27,
    "Hindi" := 24,
    "Bengali" := 24,
    "Marathi" := 24,
    "Tamil" := 23,
    "Telugu" := 23,
    "Gujarati" := 23,
    "Kannada" := 23,
    "Malayalam" := 22,
    "Punjabi" := 24,
    "Odia" := 23,
    "Assamese" := 23,
    "Nepali" := 23,
    "Urdu" := 24,
    "Sindhi" := 23,
    "Bodo" := 22,
    "Manipuri" := 22,
    "Sanskrit" := 21,
    "Gurmukhi" := 24,
    "Konkani" := 23,
    "Marwari" := 23
  ]

  /** The rate, in tenths, for a language the table does not list (2.5 words per second). */
  const DefaultRate: nat := 25

  const MinTarget: int := 60
  const MaxTarget: int := 450

  /** The speaking rate used for `language`: its table entry, or the default rate
      when the table has none (or a falsy one). */
  function Rate(language: string): (w: nat)
    ensures 21 <= w <= 27
    ensures language !in RateTable ==> w == DefaultRate
    ensures language in RateTable ==> w == RateTable[language]
  {
    if language in RateTable && RateTable[language] != 0 then RateTable[language] else DefaultRate
  }

  /** Math.round(d * (w / 10) * 1.05): the whole number nearest to 21 * d * w / 200,
      halves rounded up. */
  function RoundedWords(d: int, w: nat): (r: int)
    ensures 200 * r - 100 <= 21 * d * w < 200 * r + 100
  {
    (21 * d * w + 100) / 200
  }

  /** Math.max(60, Math.min(x, 450)). */
  function Clamp(x: int): (r: int)
    ensures MinTarget <= r <= MaxTarget
    ensures MinTarget <= x <= MaxTarget ==> r == x
    ensures x < MinTarget ==> r == MinTarget
    ensures x > MaxTarget ==> r == MaxTarget
  {
    if x < MinTarget then MinTarget else if x > MaxTarget then MaxTarget else x
  }

  /** getTargetWords: the word budget for `d` seconds spoken in `language`. */
  function TargetWords(d: int, language: string): (t: int)
    ensures MinTarget <= t <= MaxTarget
  {
    Clamp(RoundedWords(d, Rate(language)))
  }

  /** getTargetWords as called: the duration goes through parseInt(durationSec, 10)
      first, which on the text of an integer gives that integer back. */
  function GetTargetWords(durationSec: int, language: string): (t: int)
    ensures t == TargetWords(durationSec, language)
  {
    var text := IntToDecimal(durationSec);
    IntDecimalRoundTrip(durationSec);
    TargetWords(ParseDecimal(text), language)
  }

  /** Math.floor(t * 0.9): the minimum word count the prompt demands. */
  function MinWords(t: int): (m: int)
    ensures 10 * m <= 9 * t < 10 * m + 10
    ensures t >= 0 ==> m <= t
    ensures MinTarget <= t ==> 54 <= m
  {
    9 * t / 10
  }

  lemma MulMonotone(a: int, b: int, w: nat)
    requires a <= b
    ensures a * w <= b * w
  {
    assert b * w - a * w == (b - a) * w;
  }

  /** For a fixed language, a longer duration never gives a smaller budget. */
  lemma TargetWordsMonotone(d1: int, d2: int, language: string)
    requires d1 <= d2
    ensures TargetWords(d1, language) <= TargetWords(d2, language)
  {
    var w := Rate(language);
    MulMonotone(d1, d2, w);
    assert 21 * d1 * w <= 21 * d2 * w;
  }

  /** The budget sits at the floor of 60 exactly when the rounded word count is at
      most 60, that is when 21 * d * w < 12100. */
  lemma TargetWordsAtFloor(d: int, language: string)
    ensures TargetWords(d, language) == MinTarget <==> 21 * d * Rate(language) < 12100
  {
    var r := RoundedWords(d, Rate(language));
    assert r <= 60 <==> 21 * d * Rate(language) < 12100;
  }

  /** The budget sits at the ceiling of 450 exactly when 21 * d * w >= 89900. */
  lemma TargetWordsAtCeiling(d: int, language: string)
    ensures TargetWords(d, language) == MaxTarget <==> 21 * d * Rate(language) >= 89900
  {
    var r := RoundedWords(d, Rate(language));
    assert r >= 450 <==> 21 * d * Rate(language) >= 89900;
  }

  /** Between the two thresholds the budget is the rounded word count itself. */
  lemma TargetWordsUnclamped(d: int, language: string)
    requires 12100 <= 21 * d * Rate(language) < 89900
    ensures TargetWords(d, language) == RoundedWords(d, Rate(language))
  {
    TargetWordsAtFloor(d, language);
    TargetWordsAtCeiling(d, language);
  }

  /** In every language, 21 seconds or less gives the floor of 60 words. */
  lemma ShortDurationsGiveFloor(d: int, language: string)
    requires d <= 21
    ensures TargetWords(d, language) == MinTarget
  {
    var w := Rate(language);
    MulMonotone(d, 21, w);
    TargetWordsAtFloor(d, language);
  }

  /** In every language, 204 seconds or more gives the ceiling of 450 words. */
  lemma LongDurationsGiveCeiling(d: int, language: string)
    requires d >= 204
    ensures TargetWords(d, language) == MaxTarget
  {
    var w := Rate(language);
    MulMonotone(204, d, w);
    TargetWordsAtCeiling(d, language);
  }

  /** 60 seconds of English: 60 * 2.7 * 1.05 = 170.1, so 170 words, at least 153. */
  lemma EnglishMinute()
    ensures TargetWords(60, "English") == 170
    ensures MinWords(170) == 153
  {
  }

  /** 10 seconds of Malayalam: 10 * 2.2 * 1.05 = 23.1 rounds to 23, lifted to 60. */
  lemma MalayalamTenSeconds()
    ensures RoundedWords(10, Rate("Malayalam")) == 23
    ensures TargetWords(10, "Malayalam") == 60
  {
  }

  /** 1000 seconds in any language is capped at 450 words. */
  lemma ThousandSecondsCapped(language: string)
    ensures TargetWords(1000, language) == 450
  {
    LongDurationsGiveCeiling(1000, language);
  }

  /** An unlisted language uses 2.5 words per second: 100 s gives round(262.5) = 263,
      where English (2.7) gives round(283.5) = 284. */
  lemma UnknownLanguageUsesDefaultRate()
    ensures TargetWords(100, "Klingon") == 263
    ensures TargetWords(100, "English") == 284
  {
  }
}
