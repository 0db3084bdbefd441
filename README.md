# Shorts script generator: verified model of the request pipeline

This project models the deterministic core of `server.js`, the Express server behind
POST `/generate-script`. A request carries a URL, an emotion, a language, a stance, a
duration in seconds and extra information. The server:

- scrapes the article's paragraphs into a text excerpt of at most 8000 characters,
  falling back to fixed placeholder texts;
- turns the duration and the language into a word budget: a speaking rate from a
  per-language table, a 5% buffer, rounding, and a clamp to [60, 450];
- fills in defaults for the missing fields and composes the generation prompt;
- sends the prompt to a text-generation service and takes the script from the first
  non-empty place in the reply, or uses a placeholder.

Modules, one per concern:

- `Wrappers`: `Option` and JavaScript truthiness of optional strings.
- `Strings`:
  - `String.prototype.trim` with the exact JavaScript whitespace set;
  - decimal printing and parsing of integers;
  - concatenation of a list of pieces, and occurrence facts about it.
- `DurationEstimator`: the rate table and `getTargetWords`. Rates are kept in tenths of a
  word per second, so the arithmetic is exact: `Math.round(d * w/10 * 1.05)` is
  `(21*d*w + 100) / 200`.
- `DurationEstimatorAsWritten`: the table lookup exactly as written, with the
  prototype-chain defect described under Findings.
- `ContentExtractor`: the paragraph accumulation loop of `scrapeArticle` and its capping.
  There is a method with a loop, proved equal to a specification function.
- `PromptComposer`: request defaults and the prompt template. The template is kept as
  its list of fixed texts and substituted values, so where each value lands can be
  stated.
- `GenerationOrchestrator`: the reply shape, the script fallback chain and the handler.
  The page fetch and the generation service are function parameters.

Two behaviours of `server.js` worth knowing:

- A reply with no script anywhere is not a failure. The handler answers 200 with the
  placeholder script (server.js:157-162). Only a rejected service call or a throwing
  text accessor reaches the 500 answer (server.js:163-166).
- A non-numeric duration is not replaced by the default. Only a falsy duration is
  (server.js:96), and `parseInt` then yields NaN (see Left out).

## Model

| member | source | states |
|---|---|---|
| `DurationEstimator.Rate` | server.js:26-48 | The rate is the table's entry for a listed language and 2.5 words/s otherwise; every rate lies between 2.1 and 2.7. |
| `DurationEstimator.RoundedWords` | server.js:82 | The result is the integer nearest to d·w·1.05, halves rounded up: 200r − 100 ≤ 21·d·w < 200r + 100. |
| `DurationEstimator.Clamp` | server.js:84 | The result lies in [60, 450]; it is the input when the input is in range and the nearer bound otherwise. |
| `DurationEstimator.TargetWords` | server.js:78-85 | The word budget lies in [60, 450] for every integer duration and every language. |
| `DurationEstimator.GetTargetWords` | server.js:79 | Passing the duration through parseInt(…, 10) gives the same budget as the integer itself. |
| `DurationEstimator.MinWords` | server.js:105 | The minimum is ⌊0.9·t⌋ (10m ≤ 9t < 10m + 10); it is at most t and at least 54 for every budget. |
| `DurationEstimator.TargetWordsMonotone` | server.js:82-84 | For a fixed language, a longer duration never gives a smaller budget. |
| `DurationEstimator.TargetWordsAtFloor` | server.js:84 | The budget is 60 exactly when 21·d·w < 12100. |
| `DurationEstimator.TargetWordsAtCeiling` | server.js:84 | The budget is 450 exactly when 21·d·w ≥ 89900. |
| `DurationEstimator.TargetWordsUnclamped` | server.js:82-84 | Between the two thresholds the budget is the rounded word count itself. |
| `DurationEstimator.ShortDurationsGiveFloor` | server.js:82-84 | In every language, a duration of at most 21 s gives 60 words. |
| `DurationEstimator.LongDurationsGiveCeiling` | server.js:82-84 | In every language, a duration of at least 204 s gives 450 words. |
| `DurationEstimator.EnglishMinute` | server.js:27 | 60 s of English gives 170 words, with a minimum of 153. |
| `DurationEstimator.MalayalamTenSeconds` | server.js:35 | 10 s of Malayalam rounds to 23 words and is lifted to 60. |
| `DurationEstimator.ThousandSecondsCapped` | server.js:84 | 1000 s in any language gives 450 words. |
| `DurationEstimator.UnknownLanguageUsesDefaultRate` | server.js:80 | An unlisted language at 100 s gets 263 words (rate 2.5), where English gets 284. |
| `DurationEstimatorAsWritten.ReadProperty` | server.js:80 | Reading the rate table gives an own entry for a listed language, and an inherited member exactly for the Object.prototype names the table does not list, and undefined exactly for every other name. |
| `DurationEstimatorAsWritten.TargetWordsAsWritten` | server.js:78-85 | The code as written gives NaN exactly for the inherited names; otherwise it gives the corrected budget. |
| `DurationEstimatorAsWritten.ToStringLanguageGivesNaN` | server.js:80 | Language "toString" gives a NaN budget for every duration, outside [60, 450]. |
| `DurationEstimatorAsWritten.AsWrittenAgreesOnOwnNames` | server.js:78-85 | Away from the inherited names, the code as written and the corrected definition agree. |
| `Strings.TrimStart` | server.js:67 | The result is a suffix of the text; everything removed before it is whitespace, and it does not start with whitespace. |
| `Strings.TrimEnd` | server.js:67 | The result is a prefix of the text; everything removed after it is whitespace, and it does not end with whitespace. |
| `Strings.Trim` | server.js:67 | The trimmed text is empty exactly when the text is all whitespace; otherwise it starts and ends with non-whitespace. |
| `Strings.TrimIsSlice` | server.js:67 | Every text is whitespace, then its trim, then whitespace. |
| `Strings.TrimUnique` | server.js:67 | Trimming whitespace + r + whitespace gives r whenever r has no whitespace at its ends. |
| `Strings.TrimIdempotent` | server.js:67 | Trimming twice is trimming once. |
| `Strings.IntToDecimal` | server.js:102-104 | Printing an integer gives a non-empty text that starts with '-' exactly when the integer is negative. |
| `Strings.NatDecimalRoundTrip` | server.js:79 | Reading back the digits printed for a natural number gives the number. |
| `Strings.IntDecimalRoundTrip` | server.js:79 | parseInt(String(i), 10) == i for every integer i. |
| `ContentExtractor.Contribution` | server.js:67-68 | A paragraph contributes nothing exactly when it is blank; otherwise it contributes exactly its trimmed text followed by a newline. |
| `ContentExtractor.Contributions` | server.js:66-69 | There is one contribution per paragraph, in document order. |
| `ContentExtractor.AccumulatedSnoc` | server.js:68 | One more paragraph appends its contribution to the text and changes nothing before it. |
| `ContentExtractor.AccumulatedAppend` | server.js:66-69 | The text of two runs of paragraphs is the text of the first followed by the text of the second. |
| `ContentExtractor.AccumulatedEmpty` | server.js:66-69 | The accumulated text is empty exactly when every paragraph is blank. |
| `ContentExtractor.AccumulatedEndsWithNewline` | server.js:68 | A non-empty accumulated text ends with a newline. |
| `ContentExtractor.SliceFront` | server.js:71 | slice(0, n) gives the first min(n, length) characters. |
| `ContentExtractor.CapText` | server.js:71 | The result has 1 to 8000 characters: the placeholder for an empty text, else a prefix of the text that is the whole text or exactly 8000 characters. |
| `ContentExtractor.ExtractedText` | server.js:65-71 | The excerpt has 1 to 8000 characters; it is "No text extracted." exactly when every paragraph is blank; otherwise it is a prefix of the concatenated contributions, and the whole of them when it is shorter than 8000. |
| `ContentExtractor.ScrapeResult` | server.js:53-75 | The result has 1 to 8000 characters; it is the fetch-failure text exactly when the fetch failed, and the extracted excerpt otherwise. |
| `ContentExtractor.AccumulateParagraphs` | server.js:65-69 | The loop that appends each non-blank paragraph's trimmed text and a newline returns exactly the concatenated contributions. |
| `ContentExtractor.ScrapeArticle` | server.js:65-74 | The accumulation loop followed by the slice and the placeholder returns exactly the specified scrape result. |
| `PromptComposer.EffectiveDuration` | server.js:96 | An absent or zero duration becomes 60; any other duration is kept; the result is never 0. |
| `PromptComposer.InputsFor` | server.js:90-112 | A truthy language, emotion, stance or extra information is kept; a missing or empty one becomes "English", "Excited", "Neutral" or "None". The duration is the defaulted one, the budget is TargetWords of that duration and language and lies in [60, 450], and the article is the scraped excerpt. |
| `PromptComposer.PromptStatesBudgetTwice` | server.js:102-137 | The prompt contains the budget twice and the minimum twice, as separate occurrences. |
| `PromptComposer.PromptStatesInputs` | server.js:102-117 | The prompt contains the duration, the emotion, the stance, the extra information and the article, and the language twice. |
| `PromptComposer.PromptSectionsInOrder` | server.js:119-131 | The four section labels occur in the order HOOK, BODY, VISUAL CUES, ENDING, without overlapping. |
| `PromptComposer.MissingDurationMeansSixty` | server.js:96-104 | A request without a duration, or with 0, is composed exactly as one asking for 60 seconds. |
| `GenerationOrchestrator.AccessorText` | server.js:158 | When the response has a text method that returns, its value is the result; otherwise nothing is found. |
| `GenerationOrchestrator.FirstCandidateText` | server.js:159 | A value is found exactly when every link of the optional chain is present and non-empty, and it is the first candidate's first part text. |
| `GenerationOrchestrator.FirstTruthy` | server.js:157-160 | `a ‖ b ‖ … ‖ fallback`: the result is the first truthy option, and the fallback exactly when no option is truthy. |
| `GenerationOrchestrator.ExtractScript` | server.js:157-160 | The script is never empty, and it is the first truthy value of the accessor text and the candidate text, else "⚠️ No script generated.". |
| `GenerationOrchestrator.ExtractScriptCases` | server.js:157-160 | The accessor text wins when truthy; the candidate text wins when only it is truthy; the placeholder comes exactly when neither is truthy or the winning text is the placeholder itself. |
| `GenerationOrchestrator.ArticleTextFor` | server.js:93 | Without a URL the excerpt is "No URL provided."; with one it is the scrape result; either way it has 1 to 8000 characters. |
| `GenerationOrchestrator.HandleGenerateScript` | server.js:88-167 | The answer is 500 "Failed to generate script" exactly when the service rejects or the text accessor throws. Otherwise it carries a non-empty script extracted from the reply, a budget in [60, 450] computed from the defaulted duration and language, and the duration as provided. |
| `GenerationOrchestrator.SentPromptStatesBudget` | server.js:96-137 | The prompt sent to the service states the defaulted duration, and the budget and the minimum twice each. |
| `GenerationOrchestrator.MissingDurationAsksForSixtySeconds` | server.js:96-105 | Without a duration, or with 0, the sent prompt says "60" and states the 60-second budget twice. |
| `GenerationOrchestrator.FetchFailureIsNotAnError` | server.js:72-74 | Whatever the page fetch does, including failing, a service that answers readably yields a script, not an error. |

## Left out

- Express setup, CORS, body parsing, static files and the listening port: server plumbing.
- The HTTP GET of the article with its user agent and timeout. The fetch is a parameter
  that yields either the paragraph texts or a failure.
- HTML parsing and the `article p, main p, p` selector. The model receives the selected
  paragraphs' texts in document order. A paragraph that the selector matches twice (a `p`
  inside `article`) is whatever the parameter lists.
- The generation client, its configuration (model name, token limit, temperature, top-p)
  and the network call. The service is a parameter from the prompt to a reply or a
  rejection.
- Console logging of failures.
- Loading of configuration from the environment, including the API credential. The
  literal key in the source is not reproduced.
- Asynchronous scheduling: the handler is a function of its inputs.
- `DurationEstimator.TargetWords`: uses exact decimal arithmetic instead of IEEE-754
  doubles. In the unclamped range they differ at one input: 100 s at rate 2.3 is
  241.49999… in doubles and rounds to 241, where the exact value 241.5 rounds to 242.
  `Math.floor(t * 0.9)` agrees with `MinWords` for every budget in [60, 450].
- `DurationEstimator.GetTargetWords`: takes an integer duration. A non-numeric duration
  makes `parseInt` return NaN and the budget NaN. A fractional duration is truncated by
  `parseInt`. Prefix parsing ("12abc" → 12) and exponent notation for durations of 1e21
  or more are not modelled.
- `ContentExtractor.SliceFront`: counts characters as code points. JavaScript's
  `slice(0, 8000)` counts UTF-16 code units, so text outside the Basic Multilingual
  Plane is cut earlier there.
- `GenerationOrchestrator.HandleGenerateScript` and `PromptComposer.InputsFor`: use the
  corrected rate lookup (see Findings). For a language named after an Object.prototype
  member, the server as written answers with `meta.targetWords: null` and a prompt asking
  for "~NaN words"; the model's budget lies in [60, 450] instead.
- `GenerationOrchestrator.HandleGenerateScript`: `meta.duration` is the integer the
  request gave, or absent. JSON values of other types are outside the model.

## Findings

| source | as written | input that shows it | evidently intended | confidence | as-written member | corrected member |
|---|---|---|---|---|---|---|
| server.js:80 | `WPS_BY_LANG[language]` also finds members inherited from Object.prototype. They are truthy non-numbers, so the budget becomes NaN. | language "toString" (or "constructor", "valueOf", …), any duration | Only the table's own entries are rates, and the budget always lies in [60, 450] | high; not executed | `DurationEstimatorAsWritten.ToStringLanguageGivesNaN` | `DurationEstimator.TargetWords` |
